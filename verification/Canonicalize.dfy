/** Choosing the financially active version of every source entity, whatever the order of arrival. */
module Canonicalize {
  import opened Sequences
  import opened Contracts

  /** One observed receipt. `payloadHash` is computed from the record when the envelope is built. */
  datatype Envelope = Envelope(receiptId: string, record: FinancialRecord, payloadHash: string)

  /** What a receipt says, apart from which receipt said it. */
  datatype Variant = Variant(key: RecordKey, version: int, payloadHash: string)

  datatype Disposition = Accepted | Stale | Duplicate | Conflicted

  datatype Evidence = Evidence(receiptId: string, variant: Variant, disposition: Disposition)

  datatype CanonicalizationResult = CanonicalizationResult(records: seq<FinancialRecord>, evidence: seq<Evidence>,
                                                           conflicts: seq<Conflict>)

  datatype CanonicalizationError = ReceiptConflict

  function ReceiptIdOf(e: Envelope): string { e.receiptId }

  function HashOf(e: Envelope): string { e.payloadHash }

  function IdentityOf(e: Envelope): RecordKey { KeyOf(e.record) }

  function SourceVersion(e: Envelope): int { VersionOf(e.record) }

  function VariantOf(e: Envelope): Variant { Variant(IdentityOf(e), SourceVersion(e), e.payloadHash) }

  /** The payload hash is a collision-free function of the record. */
  ghost predicate FaithfulHashes(u: set<Envelope>) {
    forall e, f :: e in u && f in u ==> (e.payloadHash == f.payloadHash <==> e.record == f.record)
  }

  /** No receipt id names two different receipts. */
  ghost predicate ReceiptsAgree(u: set<Envelope>) {
    forall e, f :: e in u && f in u && e.receiptId == f.receiptId ==> e == f
  }

  function Elements<T(==)>(s: seq<T>): set<T> { set x | x in s }

  // ---- What canonicalization decides ----

  ghost predicate Winning(u: set<Envelope>, e: Envelope) {
    forall f :: f in u && IdentityOf(f) == IdentityOf(e) ==> SourceVersion(f) <= SourceVersion(e)
  }

  /** Another receipt of the same version carries a different payload. */
  ghost predicate Contested(u: set<Envelope>, e: Envelope) {
    exists f ::
    f in u && IdentityOf(f) == IdentityOf(e) && SourceVersion(f) == SourceVersion(e) && f.payloadHash != e.payloadHash
  }

  /** The least receipt id among the receipts of the same variant. */
  ghost predicate First(u: set<Envelope>, e: Envelope) {
    forall f :: f in u && VariantOf(f) == VariantOf(e) ==> f == e || StringLess(e.receiptId, f.receiptId)
  }

  ghost function DispositionIn(u: set<Envelope>, e: Envelope): Disposition {
    if !Winning(u, e) then Stale
    else if Contested(u, e) then Conflicted
    else if First(u, e) then Accepted
    else Duplicate
  }

  ghost function EvidenceIn(u: set<Envelope>): Envelope -> Evidence {
    (e: Envelope) => Evidence(e.receiptId, VariantOf(e), DispositionIn(u, e))
  }

  ghost predicate WinsConflict(u: set<Envelope>, k: RecordKey, e: Envelope) {
    e in u && IdentityOf(e) == k && DispositionIn(u, e) == Conflicted
  }

  function HashReceiptKey(e: Envelope): Key { [S(e.payloadHash), S(e.receiptId)] }

  function ReceiptKey(e: Envelope): Key { [S(e.receiptId)] }

  /** The conflict of one identity: its version, every payload hash and every receipt at that version, in order. */
  ghost predicate IsConflict(u: set<Envelope>, c: Conflict, winners: seq<Envelope>) {
    winners != [] && StrictlySorted(HashReceiptKey, winners) &&
    (forall e :: e in winners <==> WinsConflict(u, c.key, e)) &&
    c.version == SourceVersion(winners[0]) && c.receiptIds == Map(ReceiptIdOf, winners) &&
    StrictlySorted(StringKey, c.hashes) && (forall h :: h in c.hashes <==> exists e :: e in winners && HashOf(e) == h)
  }

  ghost predicate ConflictOf(u: set<Envelope>, c: Conflict) {
    exists winners :: IsConflict(u, c, winners)
  }

  function RecordIdentityKey(r: FinancialRecord): Key { IdentityKey(KeyOf(r)) }

  function EvidenceKey(x: Evidence): Key {
    IdentityKey(x.variant.key) + [N(x.variant.version), S(x.variant.payloadHash), S(x.receiptId)]
  }

  function ConflictKey(c: Conflict): Key { IdentityKey(c.key) + [N(c.version)] }

  ghost predicate AcceptedRecord(u: set<Envelope>, r: FinancialRecord) {
    exists e :: e in u && e.record == r && DispositionIn(u, e) == Accepted
  }

  ghost predicate ClassifiedIn(u: set<Envelope>, x: Evidence) {
    exists e :: e in u && EvidenceIn(u)(e) == x
  }

  /** The canonicalization of a set of receipts, stated receipt by receipt. */
  ghost predicate IsCanonicalization(u: set<Envelope>, r: CanonicalizationResult) {
    StrictlySorted(RecordIdentityKey, r.records) && (forall x :: x in r.records <==> AcceptedRecord(u, x)) &&
    StrictlySorted(EvidenceKey, r.evidence) && (forall x :: x in r.evidence <==> ClassifiedIn(u, x)) &&
    StrictlySorted(ConflictKey, r.conflicts) && (forall c :: c in r.conflicts ==> ConflictOf(u, c)) &&
    (forall k, e :: WinsConflict(u, k, e) ==> HasConflict(r.conflicts, k))
  }

  ghost predicate HasConflict(cs: seq<Conflict>, k: RecordKey) {
    exists c :: c in cs && c.key == k
  }

  lemma ConflictUnique(u: set<Envelope>, c: Conflict, d: Conflict)
    requires ConflictOf(u, c) && ConflictOf(u, d) && c.key == d.key
    ensures c == d
  {
    var cw :| IsConflict(u, c, cw);
    var dw :| IsConflict(u, d, dw);
    StrictlySortedUnique(HashReceiptKey, cw, dw);
    StrictlySortedUnique(StringKey, c.hashes, d.hashes);
  }

  lemma ConflictCovered(u: set<Envelope>, r: CanonicalizationResult, c: Conflict)
    requires IsCanonicalization(u, r) && ConflictOf(u, c)
    ensures c in r.conflicts
  {
    var ws :| IsConflict(u, c, ws);
    assert ws[0] in ws && WinsConflict(u, c.key, ws[0]);
    var d :| d in r.conflicts && d.key == c.key;
    ConflictUnique(u, c, d);
  }

  /** Nothing but the set of receipts matters: not their order, not repeated deliveries. */
  lemma CanonicalizationUnique(u: set<Envelope>, r: CanonicalizationResult, s: CanonicalizationResult)
    requires IsCanonicalization(u, r) && IsCanonicalization(u, s)
    ensures r == s
  {
    StrictlySortedUnique(RecordIdentityKey, r.records, s.records);
    StrictlySortedUnique(EvidenceKey, r.evidence, s.evidence);
    forall c
      ensures c in r.conflicts <==> c in s.conflicts
    {
      if ConflictOf(u, c) {
        ConflictCovered(u, r, c);
        ConflictCovered(u, s, c);
      }
    }
    StrictlySortedUnique(ConflictKey, r.conflicts, s.conflicts);
  }

  // ---- Evidence conservation ----

  lemma {:induction false} DistinctCount<T, K>(key: T -> K, s: seq<T>, u: set<T>)
    requires DistinctBy(key, s) && forall x :: x in s <==> x in u
    ensures |s| == |u|
  {
    if s != [] {
      var init, last := s[..|s| - 1], s[|s| - 1];
      assert s == init + [last];
      forall x
        ensures x in init <==> x in u - {last}
      {
        if x in init {
          var i :| 0 <= i < |init| && init[i] == x;
          assert key(s[i]) != key(s[|init|]);
        }
      }
      assert DistinctBy(key, init) by {
        assert forall i :: 0 <= i < |init| ==> init[i] == s[i];
      }
      DistinctCount(key, init, u - {last});
      assert last in u;
    }
  }

  function EvidenceReceipt(x: Evidence): string { x.receiptId }

  lemma EvidenceKeyReceipt(x: Evidence, y: Evidence)
    requires EvidenceKey(x) == EvidenceKey(y)
    ensures x.receiptId == y.receiptId && x.variant == y.variant
  {
    assert EvidenceKey(x)[4] == EvidenceKey(y)[4] && EvidenceKey(x)[3] == EvidenceKey(y)[3] &&
      EvidenceKey(x)[2] == EvidenceKey(y)[2];
    assert EvidenceKey(x)[..2] == IdentityKey(x.variant.key) && EvidenceKey(y)[..2] == IdentityKey(y.variant.key);
    IdentityKeyInjective(x.variant.key, y.variant.key);
  }

  lemma IdentityKeyInjective(j: RecordKey, k: RecordKey)
    requires IdentityKey(j) == IdentityKey(k)
    ensures j == k
  {
    assert IdentityKey(j)[0] == IdentityKey(k)[0] && IdentityKey(j)[1] == IdentityKey(k)[1];
  }

  /** Every unique receipt is classified exactly once. */
  lemma EvidenceConserved(u: set<Envelope>, r: CanonicalizationResult)
    requires ReceiptsAgree(u) && IsCanonicalization(u, r)
    ensures forall e :: e in u ==> EvidenceIn(u)(e) in r.evidence
    ensures forall i, j :: 0 <= i < j < |r.evidence| ==> r.evidence[i].receiptId != r.evidence[j].receiptId
    ensures |r.evidence| == |u|
  {
    forall e | e in u
      ensures EvidenceIn(u)(e) in r.evidence
    {
      assert ClassifiedIn(u, EvidenceIn(u)(e));
    }
    forall i, j | 0 <= i < j < |r.evidence|
      ensures r.evidence[i].receiptId != r.evidence[j].receiptId
    {
      assert r.evidence[i] in r.evidence && r.evidence[j] in r.evidence;
      KeyLessOrder(EvidenceKey(r.evidence[i]), EvidenceKey(r.evidence[i]), EvidenceKey(r.evidence[i]));
    }
    var receipts: set<Evidence> := set e | e in u :: EvidenceIn(u)(e);
    ImageCount(u, u, receipts);
    assert forall x :: x in r.evidence <==> x in receipts;
    assert DistinctBy(EvidenceReceipt, r.evidence);
    DistinctCount(EvidenceReceipt, r.evidence, receipts);
  }

  lemma {:induction false} ImageCount(u: set<Envelope>, part: set<Envelope>, image: set<Evidence>)
    requires part <= u && ReceiptsAgree(u) && image == set e | e in part :: EvidenceIn(u)(e)
    ensures |image| == |part|
    decreases part
  {
    if part != {} {
      var e :| e in part;
      var rest, x := part - {e}, EvidenceIn(u)(e);
      var restImage: set<Evidence> := set f | f in rest :: EvidenceIn(u)(f);
      forall f | f in rest
        ensures EvidenceIn(u)(f) != x
      {
        assert EvidenceIn(u)(f).receiptId == f.receiptId;
      }
      assert image == restImage + {x};
      ImageCount(u, rest, restImage);
    }
  }

  lemma MaximalVersion(u: set<Envelope>, k: RecordKey, e: Envelope) returns (w: Envelope)
    requires e in u && IdentityOf(e) == k
    ensures w in u && IdentityOf(w) == k && Winning(u, w)
    decreases |set f | f in u && IdentityOf(f) == k && SourceVersion(f) > SourceVersion(e)|
  {
    if Winning(u, e) {
      return e;
    }
    var f :| f in u && IdentityOf(f) == IdentityOf(e) && SourceVersion(f) > SourceVersion(e);
    var above := set g | g in u && IdentityOf(g) == k && SourceVersion(g) > SourceVersion(e);
    var higher := set g | g in u && IdentityOf(g) == k && SourceVersion(g) > SourceVersion(f);
    assert f in above && f !in higher && higher <= above;
    SmallerSet(higher, above);
    w := MaximalVersion(u, k, f);
  }

  lemma SmallerSet<T>(a: set<T>, b: set<T>)
    requires a < b
    ensures |a| < |b|
  {
    assert |b| == |a| + |b - a| by {
      assert b == a + (b - a) && a !! (b - a);
    }
    assert b - a != {};
  }

  lemma FirstOfVariant(u: set<Envelope>, e: Envelope) returns (w: Envelope)
    requires e in u && ReceiptsAgree(u)
    ensures w in u && VariantOf(w) == VariantOf(e) && First(u, w)
    decreases |set f | f in u && VariantOf(f) == VariantOf(e) && StringLess(f.receiptId, e.receiptId)|
  {
    if First(u, e) {
      return e;
    }
    var f :| f in u && VariantOf(f) == VariantOf(e) && f != e && !StringLess(e.receiptId, f.receiptId);
    StringLessOrder(e.receiptId, f.receiptId, e.receiptId);
    var below := set g | g in u && VariantOf(g) == VariantOf(e) && StringLess(g.receiptId, e.receiptId);
    var lower := set g | g in u && VariantOf(g) == VariantOf(e) && StringLess(g.receiptId, f.receiptId);
    StringLessOrder(f.receiptId, f.receiptId, f.receiptId);
    forall g | g in lower
      ensures g in below
    {
      StringLessOrder(g.receiptId, f.receiptId, e.receiptId);
    }
    assert f in below && f !in lower;
    SmallerSet(lower, below);
    w := FirstOfVariant(u, f);
  }

  ghost predicate Current(r: CanonicalizationResult, x: FinancialRecord, k: RecordKey) {
    x in r.records && KeyOf(x) == k
  }

  ghost predicate InConflict(r: CanonicalizationResult, c: Conflict, k: RecordKey) {
    c in r.conflicts && c.key == k
  }

  /** Identities of different results never coincide, and within one list they never repeat. */
  lemma AtMostOneOutcome(u: set<Envelope>, r: CanonicalizationResult)
    requires ReceiptsAgree(u) && IsCanonicalization(u, r)
    ensures UniqueIdentities(r.records)
    ensures forall i, j :: 0 <= i < j < |r.conflicts| ==> r.conflicts[i].key != r.conflicts[j].key
    ensures forall x, c :: x in r.records && c in r.conflicts ==> KeyOf(x) != c.key
  {
    forall i, j | 0 <= i < j < |r.records|
      ensures KeyOf(r.records[i]) != KeyOf(r.records[j])
    {
      KeyLessOrder(RecordIdentityKey(r.records[i]), RecordIdentityKey(r.records[j]), RecordIdentityKey(r.records[i]));
    }
    forall i, j | 0 <= i < j < |r.conflicts|
      ensures r.conflicts[i].key != r.conflicts[j].key
    {
      var c, d := r.conflicts[i], r.conflicts[j];
      assert c in r.conflicts && d in r.conflicts;
      if c.key == d.key {
        ConflictUnique(u, c, d);
        KeyLessOrder(ConflictKey(c), ConflictKey(c), ConflictKey(c));
      }
    }
    forall x, c | x in r.records && c in r.conflicts
      ensures KeyOf(x) != c.key
    {
      var e :| e in u && e.record == x && DispositionIn(u, e) == Accepted;
      var ws :| IsConflict(u, c, ws);
      assert ws[0] in ws && WinsConflict(u, c.key, ws[0]);
      NotBoth(u, e, ws[0]);
    }
  }

  lemma NotBoth(u: set<Envelope>, e: Envelope, w: Envelope)
    requires e in u && DispositionIn(u, e) == Accepted && w in u && DispositionIn(u, w) == Conflicted
    ensures IdentityOf(e) != IdentityOf(w)
  {
    var f :| f in u && IdentityOf(f) == IdentityOf(w) && SourceVersion(f) == SourceVersion(w) &&
      f.payloadHash != w.payloadHash;
    assert IdentityOf(e) == IdentityOf(w) ==> f.payloadHash == e.payloadHash == w.payloadHash;
  }

  /** Every received identity has exactly one outcome at its highest version: a current record or a conflict. */
  lemma OneOutcomePerIdentity(u: set<Envelope>, r: CanonicalizationResult, k: RecordKey)
    requires ReceiptsAgree(u) && IsCanonicalization(u, r)
    ensures (exists e :: e in u && IdentityOf(e) == k) <==>
      (exists x :: Current(r, x, k)) || (exists c :: InConflict(r, c, k))
    ensures !((exists x :: Current(r, x, k)) && (exists c :: InConflict(r, c, k)))
    ensures forall x, e :: Current(r, x, k) && e in u && IdentityOf(e) == k ==> SourceVersion(e) <= VersionOf(x)
    ensures forall c, e :: InConflict(r, c, k) && e in u && IdentityOf(e) == k ==> SourceVersion(e) <= c.version
  {
    AtMostOneOutcome(u, r);
    forall x, e | Current(r, x, k) && e in u && IdentityOf(e) == k
      ensures SourceVersion(e) <= VersionOf(x)
    {
      var a :| a in u && a.record == x && DispositionIn(u, a) == Accepted;
    }
    forall c, e | InConflict(r, c, k) && e in u && IdentityOf(e) == k
      ensures SourceVersion(e) <= c.version
    {
      var ws :| IsConflict(u, c, ws);
      assert ws[0] in ws && WinsConflict(u, c.key, ws[0]);
    }
    if e :| e in u && IdentityOf(e) == k {
      OutcomeExists(u, r, k, e);
    }
    if c :| InConflict(r, c, k) {
      var ws :| IsConflict(u, c, ws);
      assert ws[0] in ws && WinsConflict(u, c.key, ws[0]);
    }
    if x :| Current(r, x, k) {
      var a :| a in u && a.record == x && DispositionIn(u, a) == Accepted;
    }
  }

  lemma OutcomeExists(u: set<Envelope>, r: CanonicalizationResult, k: RecordKey, e: Envelope)
    requires ReceiptsAgree(u) && IsCanonicalization(u, r) && e in u && IdentityOf(e) == k
    ensures (exists x :: Current(r, x, k)) || (exists c :: InConflict(r, c, k))
  {
    var w := MaximalVersion(u, k, e);
    if Contested(u, w) {
      assert WinsConflict(u, k, w);
      var c :| c in r.conflicts && c.key == k;
      assert InConflict(r, c, k);
    } else {
      var a := FirstOfVariant(u, w);
      assert Winning(u, a) && !Contested(u, a);
      assert Current(r, a.record, k);
    }
  }

  // ---- The passes ----

  /** Collapses exact replays and rejects a receipt id that names two different receipts. */
  method DeduplicateReceipts(es: seq<Envelope>) returns (r: Result<seq<Envelope>, CanonicalizationError>)
    requires FaithfulHashes(Elements(es))
    ensures r.Failure? <==> exists e, f :: e in es && f in es && e.receiptId == f.receiptId && e != f
    ensures r.Failure? <==> !ReceiptsAgree(Elements(es))
    ensures r.Success? ==> NoRepeats(r.value) && forall e :: e in r.value <==> e in es
  {
    var index: map<string, Envelope> := map[];
    var unique: seq<Envelope> := [];
    for i := 0 to |es|
      invariant forall e :: e in unique <==> e in es[..i]
      invariant forall e :: e in unique <==> e.receiptId in index && index[e.receiptId] == e
      invariant forall id :: id in index ==> index[id].receiptId == id
      invariant NoRepeats(unique)
    {
      assert es[..i + 1] == es[..i] + [es[i]];
      var e := es[i];
      if e.receiptId in index {
        assert index[e.receiptId] in unique && index[e.receiptId] in Elements(es) && e in Elements(es);
        if VariantOf(index[e.receiptId]) != VariantOf(e) {
          return Failure(ReceiptConflict);
        }
        assert index[e.receiptId] == e;
      } else {
        index, unique := index[e.receiptId := e], unique + [e];
      }
    }
    assert es[..|es|] == es;
    assert forall e :: e in Elements(es) ==> e in unique;
    r := Success(unique);
  }

  lemma SortedReceipts(u: set<Envelope>, s: seq<Envelope>)
    requires ReceiptsAgree(u) && NoRepeats(s) && forall e :: e in s ==> e in u
    ensures StrictlySorted(ReceiptKey, Sort(ReceiptKey, s)) && NoRepeats(Sort(ReceiptKey, s))
    ensures forall e :: e in Sort(ReceiptKey, s) <==> e in s
    ensures |Sort(ReceiptKey, s)| == |s|
  {
    forall i, j | 0 <= i < j < |s|
      ensures ReceiptKey(s[i]) != ReceiptKey(s[j])
    {
      assert s[i] in u && s[j] in u;
      assert ReceiptKey(s[i])[0] == S(s[i].receiptId) && ReceiptKey(s[j])[0] == S(s[j].receiptId);
    }
    SortStrict(ReceiptKey, s);
    StrictNoRepeats(ReceiptKey, Sort(ReceiptKey, s));
    SortMembers(ReceiptKey, s);
  }

  lemma SortedByHash(u: set<Envelope>, s: seq<Envelope>)
    requires ReceiptsAgree(u) && NoRepeats(s) && forall e :: e in s ==> e in u
    ensures StrictlySorted(HashReceiptKey, Sort(HashReceiptKey, s)) && NoRepeats(Sort(HashReceiptKey, s))
    ensures forall e :: e in Sort(HashReceiptKey, s) <==> e in s
  {
    forall i, j | 0 <= i < j < |s|
      ensures HashReceiptKey(s[i]) != HashReceiptKey(s[j])
    {
      assert s[i] in u && s[j] in u;
      assert HashReceiptKey(s[i])[1] == S(s[i].receiptId) && HashReceiptKey(s[j])[1] == S(s[j].receiptId);
    }
    SortStrict(HashReceiptKey, s);
    StrictNoRepeats(HashReceiptKey, Sort(HashReceiptKey, s));
    SortMembers(HashReceiptKey, s);
  }

  lemma GroupMembers<K>(key: Envelope -> K, s: seq<Envelope>, k: K)
    requires NoRepeats(s)
    ensures forall e :: e in Filter(KeyIs(key, k), s) <==> e in s && key(e) == k
    ensures NoRepeats(Filter(KeyIs(key, k), s))
  {
    FilterMembers(KeyIs(key, k), s);
    FilterNoRepeats(KeyIs(key, k), s);
  }

  lemma {:induction false} FilterNoRepeats<T>(p: T -> bool, s: seq<T>)
    requires NoRepeats(s)
    ensures NoRepeats(Filter(p, s))
  {
    if s != [] {
      var init, last := s[..|s| - 1], s[|s| - 1];
      assert s == init + [last];
      FilterNoRepeats(p, init);
      FilterMember(p, init, last);
      assert forall i :: 0 <= i < |init| ==> init[i] == s[i] && s[i] != s[|init|];
    }
  }

  /** `order` lists the receipts of `whole` whose key has been visited, once each. */
  ghost predicate Collected<K>(key: Envelope -> K, whole: seq<Envelope>, visited: set<K>, order: seq<Envelope>) {
    NoRepeats(order) && forall e :: e in order <==> e in whole && key(e) in visited
  }

  lemma CollectedMore<K>(key: Envelope -> K, whole: seq<Envelope>, visited: set<K>, order: seq<Envelope>, k: K,
                         more: seq<Envelope>)
    requires Collected(key, whole, visited, order) && k !in visited
    requires NoRepeats(more) && forall e :: e in more <==> e in whole && key(e) == k
    ensures Collected(key, whole, visited + {k}, order + more)
  {
    var all := order + more;
    forall i, j | 0 <= i < j < |all|
      ensures all[i] != all[j]
    {
      if i < |order| <= j {
        assert order[i] in order && more[j - |order|] in more;
      }
    }
  }

  lemma CollectedAll<K>(key: Envelope -> K, whole: seq<Envelope>, visited: set<K>, order: seq<Envelope>)
    requires Collected(key, whole, visited, order) && AllIn(key, whole, visited)
    ensures forall e :: e in order <==> e in whole
  {
  }

  ghost predicate AllIn<K>(key: Envelope -> K, whole: seq<Envelope>, visited: set<K>) {
    forall i :: 0 <= i < |whole| ==> key(whole[i]) in visited
  }

  method HashBuckets(version: seq<Envelope>) returns (buckets: map<string, seq<Envelope>>, hashes: seq<string>)
    ensures Grouped(HashOf, version, buckets) && NoRepeats(hashes) && AllIn(HashOf, version, Elements(hashes))
  {
    buckets := GroupBy(HashOf, version);
    hashes := SortedList(StringKey, buckets.Keys);
    StrictNoRepeats(StringKey, hashes);
  }

  /** The receipts of one version, bucket by bucket in hash order and by receipt id inside a bucket. */
  method InHashOrder(version: seq<Envelope>, ghost u: set<Envelope>) returns (order: seq<Envelope>)
    requires ReceiptsAgree(u) && NoRepeats(version) && forall e :: e in version ==> e in u
    ensures NoRepeats(order) && forall e :: e in order <==> e in version
  {
    var buckets, hashes := HashBuckets(version);
    order := [];
    for i := 0 to |hashes|
      invariant Collected(HashOf, version, Elements(hashes[..i]), order)
    {
      var bucket := SortedBucket(HashOf, version, Get(buckets, hashes[i]), hashes[i], u);
      CollectedMore(HashOf, version, Elements(hashes[..i]), order, hashes[i], bucket);
      assert Elements(hashes[..i + 1]) == Elements(hashes[..i]) + {hashes[i]};
      order := order + bucket;
    }
    assert hashes[..|hashes|] == hashes;
    CollectedAll(HashOf, version, Elements(hashes), order);
  }

  method SortedBucket<K>(ghost key: Envelope -> K, ghost whole: seq<Envelope>, bucket: seq<Envelope>, ghost k: K,
                         ghost u: set<Envelope>)
    returns (sorted: seq<Envelope>)
    requires ReceiptsAgree(u) && NoRepeats(whole) && (forall e :: e in whole ==> e in u) &&
      bucket == Filter(KeyIs(key, k), whole)
    ensures NoRepeats(sorted) && forall e :: e in sorted <==> e in whole && key(e) == k
  {
    GroupMembers(key, whole, k);
    SortedReceipts(u, bucket);
    sorted := Sort(ReceiptKey, bucket);
  }

  /** Every receipt below the highest version, version by version. */
  method StaleReceipts(group: seq<Envelope>, versions: map<int, seq<Envelope>>, winning: int, ghost u: set<Envelope>)
    returns (order: seq<Envelope>)
    requires ReceiptsAgree(u) && NoRepeats(group) && forall e :: e in group ==> e in u
    requires Grouped(SourceVersion, group, versions)
    requires forall v :: v in versions <==> exists i :: 0 <= i < |group| && SourceVersion(group[i]) == v
    ensures NoRepeats(order) && forall e :: e in order <==> e in group && SourceVersion(e) != winning
  {
    var sorted := SortedList(IntKey, versions.Keys);
    StrictNoRepeats(IntKey, sorted);
    order := [];
    for i := 0 to |sorted|
      invariant Collected(SourceVersion, group, Elements(sorted[..i]) - {winning}, order)
    {
      assert Elements(sorted[..i + 1]) == Elements(sorted[..i]) + {sorted[i]};
      if sorted[i] == winning {
        assert Elements(sorted[..i + 1]) - {winning} == Elements(sorted[..i]) - {winning};
        continue;
      }
      GroupMembers(SourceVersion, group, sorted[i]);
      var more := InHashOrder(Get(versions, sorted[i]), u);
      CollectedMore(SourceVersion, group, Elements(sorted[..i]) - {winning}, order, sorted[i], more);
      assert Elements(sorted[..i + 1]) - {winning} == Elements(sorted[..i]) - {winning} + {sorted[i]};
      order := order + more;
    }
    assert sorted[..|sorted|] == sorted;
    CollectedExcept(group, Elements(sorted), winning, order);
  }

  lemma CollectedExcept(group: seq<Envelope>, visited: set<int>, winning: int, order: seq<Envelope>)
    requires Collected(SourceVersion, group, visited - {winning}, order)
    requires forall i :: 0 <= i < |group| ==> SourceVersion(group[i]) in visited
    ensures forall e :: e in order <==> e in group && SourceVersion(e) != winning
  {
  }

  function AsEvidence(d: Disposition): Envelope -> Evidence {
    (e: Envelope) => Evidence(e.receiptId, VariantOf(e), d)
  }

  /** `group` holds every receipt of one identity. */
  ghost predicate IsGroup(u: set<Envelope>, k: RecordKey, group: seq<Envelope>) {
    group != [] && NoRepeats(group) && forall e :: e in group <==> e in u && IdentityOf(e) == k
  }

  ghost predicate OutcomeEvidence(u: set<Envelope>, k: RecordKey, order: seq<Envelope>, evidence: seq<Evidence>) {
    NoRepeats(order) && (forall e :: e in order <==> e in u && IdentityOf(e) == k) &&
    evidence == Map(EvidenceIn(u), order)
  }

  ghost predicate OutcomeResults(u: set<Envelope>, k: RecordKey, records: seq<FinancialRecord>,
                                 conflicts: seq<Conflict>) {
    |records| <= 1 && |conflicts| <= 1 && (forall x :: x in records <==> AcceptedRecord(u, x) && KeyOf(x) == k) &&
    (forall c :: c in conflicts ==> ConflictOf(u, c) && c.key == k) &&
    (forall e :: WinsConflict(u, k, e) ==> conflicts != [])
  }

  ghost predicate IsOutcome(u: set<Envelope>, k: RecordKey, order: seq<Envelope>, evidence: seq<Evidence>,
                            records: seq<FinancialRecord>, conflicts: seq<Conflict>) {
    OutcomeEvidence(u, k, order, evidence) && OutcomeResults(u, k, records, conflicts)
  }

  method MaxVersion(versions: set<int>) returns (m: int)
    requires versions != {}
    ensures m in versions && forall v :: v in versions ==> v <= m
  {
    Inhabited(versions);
    m :| m in versions;
    var rest := versions - {m};
    while rest != {}
      invariant rest <= versions && m in versions
      invariant forall v :: v in versions && v !in rest ==> v <= m
      decreases rest
    {
      Inhabited(rest);
      var v :| v in rest;
      m, rest := if v > m then v else m, rest - {v};
    }
  }

  /** The receipts of `k`, split into those below the winning version and those at it. */
  ghost predicate TwoLayers(u: set<Envelope>, k: RecordKey, winning: int, stale: seq<Envelope>, top: seq<Envelope>) {
    NoRepeats(stale) && NoRepeats(top) && top != [] &&
    (forall e :: e in stale <==> e in u && IdentityOf(e) == k && !Winning(u, e)) &&
    (forall e :: e in top <==> e in u && IdentityOf(e) == k && Winning(u, e)) &&
    (forall e :: e in top ==> SourceVersion(e) == winning)
  }

  /** One identity: its stale receipts, then either a conflict or the accepted receipt and its duplicates. */
  method ClassifyIdentity(k: RecordKey, group: seq<Envelope>, ghost u: set<Envelope>)
    returns (ghost order: seq<Envelope>, evidence: seq<Evidence>, records: seq<FinancialRecord>,
             conflicts: seq<Conflict>)
    requires ReceiptsAgree(u) && FaithfulHashes(u) && IsGroup(u, k, group)
    ensures IsOutcome(u, k, order, evidence, records, conflicts)
  {
    var winning, stale, winners := SplitVersions(k, group, u);
    var buckets := GroupBy(HashOf, winners);
    if |buckets| > 1 {
      order, evidence, records, conflicts := ClassifyConflict(k, winning, stale, winners, buckets, u);
    } else {
      order, evidence, records, conflicts := ClassifyAccepted(k, winning, stale, winners, buckets, u);
    }
  }

  method SplitVersions(ghost k: RecordKey, group: seq<Envelope>, ghost u: set<Envelope>)
    returns (winning: int, stale: seq<Envelope>, winners: seq<Envelope>)
    requires ReceiptsAgree(u) && IsGroup(u, k, group)
    ensures TwoLayers(u, k, winning, stale, winners)
  {
    var versions := GroupBy(SourceVersion, group);
    assert SourceVersion(group[0]) in versions;
    winning := MaxVersion(versions.Keys);
    stale := StaleReceipts(group, versions, winning, u);
    winners := Get(versions, winning);
    Layers(u, k, group, versions, winning, stale);
  }

  lemma Layers(u: set<Envelope>, k: RecordKey, group: seq<Envelope>, versions: map<int, seq<Envelope>>, winning: int,
               stale: seq<Envelope>)
    requires IsGroup(u, k, group) && Grouped(SourceVersion, group, versions) && winning in versions
    requires forall v :: v in versions <==> exists i :: 0 <= i < |group| && SourceVersion(group[i]) == v
    requires forall v :: v in versions ==> v <= winning
    requires NoRepeats(stale) && forall e :: e in stale <==> e in group && SourceVersion(e) != winning
    ensures TwoLayers(u, k, winning, stale, Get(versions, winning))
  {
    HighestVersion(u, k, group, versions, winning);
  }

  ghost predicate Hashed(winners: seq<Envelope>, buckets: map<string, seq<Envelope>>) {
    forall h :: h in buckets <==> exists i :: 0 <= i < |winners| && HashOf(winners[i]) == h
  }

  method ClassifyConflict(k: RecordKey, winning: int, stale: seq<Envelope>, winners: seq<Envelope>,
                          buckets: map<string, seq<Envelope>>, ghost u: set<Envelope>)
    returns (ghost order: seq<Envelope>, evidence: seq<Evidence>, records: seq<FinancialRecord>,
             conflicts: seq<Conflict>)
    requires ReceiptsAgree(u) && TwoLayers(u, k, winning, stale, winners) && Hashed(winners, buckets) && |buckets| > 1
    ensures IsOutcome(u, k, order, evidence, records, conflicts)
  {
    Buckets(winners, buckets);
    AllContested(u, k, winning, stale, winners);
    var conflict := BuildConflict(k, winning, winners, buckets, u);
    var conflicting := Sort(HashReceiptKey, winners);
    order := stale + conflicting;
    evidence := Map(AsEvidence(Stale), stale) + Map(AsEvidence(Conflicted), conflicting);
    records, conflicts := [], [conflict];
    SortedByHash(u, winners);
    ConflictEvidence(u, k, winning, stale, winners, conflicting);
    NoneAccepted(u, k, winning, stale, winners);
    ConflictOutcome(u, k, conflict);
  }

  lemma ConflictOutcome(u: set<Envelope>, k: RecordKey, c: Conflict)
    requires ConflictOf(u, c) && c.key == k && forall x :: AcceptedRecord(u, x) ==> KeyOf(x) != k
    ensures OutcomeResults(u, k, [], [c])
  {
  }

  lemma ConflictEvidence(u: set<Envelope>, k: RecordKey, winning: int, stale: seq<Envelope>, winners: seq<Envelope>,
                         top: seq<Envelope>)
    requires TwoLayers(u, k, winning, stale, winners) && NoRepeats(top) && forall e :: e in top <==> e in winners
    requires forall e :: e in winners ==> DispositionIn(u, e) == Conflicted
    ensures OutcomeEvidence(u, k, stale + top, Map(AsEvidence(Stale), stale) + Map(AsEvidence(Conflicted), top))
  {
    SameLayers(u, k, winning, stale, winners, top);
    JoinedOrder(u, k, winning, stale, top);
    LayerEvidence(u, stale, top, Conflicted);
  }

  method BuildConflict(k: RecordKey, winning: int, winners: seq<Envelope>, buckets: map<string, seq<Envelope>>,
                       ghost u: set<Envelope>)
    returns (c: Conflict)
    requires ReceiptsAgree(u) && NoRepeats(winners) && winners != [] && forall e :: e in winners <==>
      WinsConflict(u, k, e)
    requires forall e :: e in winners ==> SourceVersion(e) == winning
    requires Hashed(winners, buckets)
    ensures ConflictOf(u, c) && c.key == k
  {
    SortedByHash(u, winners);
    var conflicting := Sort(HashReceiptKey, winners);
    var hashes := SortedList(StringKey, buckets.Keys);
    assert forall h :: h in hashes <==> h in buckets;
    c := Conflict(k, winning, hashes, Map(ReceiptIdOf, conflicting));
    ConflictBuilt(u, k, winners, conflicting, c);
  }

  method ClassifyAccepted(k: RecordKey, winning: int, stale: seq<Envelope>, winners: seq<Envelope>,
                          buckets: map<string, seq<Envelope>>, ghost u: set<Envelope>)
    returns (ghost order: seq<Envelope>, evidence: seq<Evidence>, records: seq<FinancialRecord>,
             conflicts: seq<Conflict>)
    requires ReceiptsAgree(u) && FaithfulHashes(u) && TwoLayers(u, k, winning, stale, winners) &&
      Hashed(winners, buckets) && |buckets| <= 1
    ensures IsOutcome(u, k, order, evidence, records, conflicts)
  {
    SortedReceipts(u, winners);
    var sorted := Sort(ReceiptKey, winners);
    var accepted := sorted[0];
    order := stale + sorted;
    evidence := Map(AsEvidence(Stale), stale)
      + ([AsEvidence(Accepted)(accepted)] + Map(AsEvidence(Duplicate), sorted[1..]));
    records, conflicts := [accepted.record], [];
    Buckets(winners, buckets);
    SameLayers(u, k, winning, stale, winners, sorted);
    JoinedOrder(u, k, winning, stale, sorted);
    LeastIsAccepted(u, k, winning, stale, sorted);
    WinnerEvidence(u, sorted);
    EvidenceAs(u, stale, Stale);
    MapConcat(EvidenceIn(u), stale, sorted);
    OnlyAccepted(u, k, winning, stale, sorted);
  }

  lemma HighestVersion(u: set<Envelope>, k: RecordKey, group: seq<Envelope>, versions: map<int, seq<Envelope>>,
                       winning: int)
    requires IsGroup(u, k, group) && Grouped(SourceVersion, group, versions) && winning in versions
    requires forall v :: v in versions <==> exists i :: 0 <= i < |group| && SourceVersion(group[i]) == v
    requires forall v :: v in versions ==> v <= winning
    ensures forall e :: e in group ==> SourceVersion(e) <= winning && (Winning(u, e) <==> SourceVersion(e) == winning)
    ensures Get(versions, winning) != [] && NoRepeats(Get(versions, winning))
    ensures forall e :: e in Get(versions, winning) <==> e in group && SourceVersion(e) == winning
  {
    GroupMembers(SourceVersion, group, winning);
    forall e | e in group
      ensures SourceVersion(e) <= winning
    {
      var i :| 0 <= i < |group| && group[i] == e;
      assert SourceVersion(group[i]) in versions;
    }
    var i :| 0 <= i < |group| && SourceVersion(group[i]) == winning;
    assert group[i] in Get(versions, winning);
    forall e | e in group
      ensures Winning(u, e) <==> SourceVersion(e) == winning
    {
      assert group[i] in u && IdentityOf(group[i]) == IdentityOf(e);
    }
  }

  /** More than one bucket exactly when two winners disagree. */
  lemma Buckets(winners: seq<Envelope>, buckets: map<string, seq<Envelope>>)
    requires winners != [] && Hashed(winners, buckets)
    ensures |buckets| > 1 <==> exists e, f :: e in winners && f in winners && e.payloadHash != f.payloadHash
  {
    var h := HashOf(winners[0]);
    assert h in buckets.Keys;
    if |buckets| > 1 {
      assert |buckets.Keys - {h}| == |buckets.Keys| - 1;
      var g :| g in buckets.Keys - {h};
      var i :| 0 <= i < |winners| && HashOf(winners[i]) == g;
      assert winners[0] in winners && winners[i] in winners;
    }
    if e, f :| e in winners && f in winners && e.payloadHash != f.payloadHash {
      var i :| 0 <= i < |winners| && winners[i] == e;
      var j :| 0 <= j < |winners| && winners[j] == f;
      assert HashOf(winners[i]) in buckets.Keys && HashOf(winners[j]) in buckets.Keys;
      assert {HashOf(e), HashOf(f)} <= buckets.Keys;
      assert |{HashOf(e), HashOf(f)}| == 2;
      SubsetCount({HashOf(e), HashOf(f)}, buckets.Keys);
    }
  }

  lemma SubsetCount<T>(a: set<T>, b: set<T>)
    requires a <= b
    ensures |a| <= |b|
  {
    if a != b {
      SmallerSet(a, b);
    }
  }

  lemma AllContested(u: set<Envelope>, k: RecordKey, winning: int, stale: seq<Envelope>, winners: seq<Envelope>)
    requires TwoLayers(u, k, winning, stale, winners)
    requires exists e, f :: e in winners && f in winners && e.payloadHash != f.payloadHash
    ensures forall e :: e in winners <==> WinsConflict(u, k, e)
  {
    var a, b :| a in winners && b in winners && a.payloadHash != b.payloadHash;
    forall e | e in winners
      ensures WinsConflict(u, k, e)
    {
      assert a.payloadHash != e.payloadHash || b.payloadHash != e.payloadHash;
      assert Contested(u, e);
    }
  }

  lemma ConflictBuilt(u: set<Envelope>, k: RecordKey, winners: seq<Envelope>, conflicting: seq<Envelope>, c: Conflict)
    requires winners != [] && forall e :: e in winners <==> WinsConflict(u, k, e)
    requires StrictlySorted(HashReceiptKey, conflicting) && forall e :: e in conflicting <==> e in winners
    requires c.key == k && c.receiptIds == Map(ReceiptIdOf, conflicting) &&
      (forall e :: e in winners ==> SourceVersion(e) == c.version)
    requires StrictlySorted(StringKey, c.hashes)
    requires forall h :: h in c.hashes <==> exists i :: 0 <= i < |winners| && HashOf(winners[i]) == h
    ensures ConflictOf(u, c)
  {
    assert winners[0] in conflicting;
    assert conflicting[0] in conflicting;
    forall h
      ensures h in c.hashes <==> exists e :: e in conflicting && HashOf(e) == h
    {
      if e :| e in conflicting && HashOf(e) == h {
        var i :| 0 <= i < |winners| && winners[i] == e;
        assert HashOf(winners[i]) == h;
      }
      if h in c.hashes {
        var i :| 0 <= i < |winners| && HashOf(winners[i]) == h;
        assert winners[i] in conflicting;
      }
    }
    assert IsConflict(u, c, conflicting);
  }

  lemma SameLayers(u: set<Envelope>, k: RecordKey, winning: int, stale: seq<Envelope>, top: seq<Envelope>,
                   sorted: seq<Envelope>)
    requires TwoLayers(u, k, winning, stale, top) && NoRepeats(sorted) && forall e :: e in sorted <==> e in top
    ensures TwoLayers(u, k, winning, stale, sorted)
  {
    assert top[0] in sorted;
  }

  lemma JoinedOrder(u: set<Envelope>, k: RecordKey, winning: int, stale: seq<Envelope>, top: seq<Envelope>)
    requires TwoLayers(u, k, winning, stale, top)
    ensures NoRepeats(stale + top) && forall e :: e in stale + top <==> e in u && IdentityOf(e) == k
  {
    var all := stale + top;
    forall i, j | 0 <= i < j < |all|
      ensures all[i] != all[j]
    {
      if i < |stale| <= j {
        assert stale[i] in stale && top[j - |stale|] in top;
      }
    }
  }

  lemma EvidenceAs(u: set<Envelope>, s: seq<Envelope>, d: Disposition)
    requires forall e :: e in s ==> DispositionIn(u, e) == d
    ensures Map(AsEvidence(d), s) == Map(EvidenceIn(u), s)
  {
    MapAgree(AsEvidence(d), EvidenceIn(u), s);
  }

  lemma LayerEvidence(u: set<Envelope>, stale: seq<Envelope>, top: seq<Envelope>, d: Disposition)
    requires forall e :: e in stale ==> DispositionIn(u, e) == Stale
    requires forall e :: e in top ==> DispositionIn(u, e) == d
    ensures Map(AsEvidence(Stale), stale) + Map(AsEvidence(d), top) == Map(EvidenceIn(u), stale + top)
  {
    EvidenceAs(u, stale, Stale);
    EvidenceAs(u, top, d);
    MapConcat(EvidenceIn(u), stale, top);
  }

  lemma WinnerEvidence(u: set<Envelope>, sorted: seq<Envelope>)
    requires sorted != [] && DispositionIn(u, sorted[0]) == Accepted
    requires forall e :: e in sorted[1..] ==> DispositionIn(u, e) == Duplicate
    ensures [AsEvidence(Accepted)(sorted[0])] + Map(AsEvidence(Duplicate), sorted[1..]) == Map(EvidenceIn(u), sorted)
  {
    EvidenceAs(u, sorted[1..], Duplicate);
    assert sorted == [sorted[0]] + sorted[1..];
    MapConcat(EvidenceIn(u), [sorted[0]], sorted[1..]);
    assert Map(EvidenceIn(u), [sorted[0]]) == [AsEvidence(Accepted)(sorted[0])];
  }

  lemma NoneAccepted(u: set<Envelope>, k: RecordKey, winning: int, stale: seq<Envelope>, top: seq<Envelope>)
    requires TwoLayers(u, k, winning, stale, top) && forall e :: e in top ==> WinsConflict(u, k, e)
    ensures forall x :: AcceptedRecord(u, x) ==> KeyOf(x) != k
  {
    forall x | AcceptedRecord(u, x)
      ensures KeyOf(x) != k
    {
      var e :| e in u && e.record == x && DispositionIn(u, e) == Accepted;
      assert IdentityOf(e) == k ==> e in top;
    }
  }

  lemma OnlyAccepted(u: set<Envelope>, k: RecordKey, winning: int, stale: seq<Envelope>, sorted: seq<Envelope>)
    requires FaithfulHashes(u) && TwoLayers(u, k, winning, stale, sorted) && DispositionIn(u, sorted[0]) == Accepted
    requires forall e, f :: e in sorted && f in sorted ==> e.payloadHash == f.payloadHash
    requires forall e :: e in sorted ==> !Contested(u, e)
    ensures forall x :: x in [sorted[0].record] <==> AcceptedRecord(u, x) && KeyOf(x) == k
    ensures forall e :: !WinsConflict(u, k, e)
  {
    assert sorted[0] in sorted;
    forall x
      ensures x in [sorted[0].record] <==> AcceptedRecord(u, x) && KeyOf(x) == k
    {
      if AcceptedRecord(u, x) && KeyOf(x) == k {
        var e :| e in u && e.record == x && DispositionIn(u, e) == Accepted;
        assert e in sorted;
      }
    }
  }

  /** The least receipt id is the accepted one and every other winner duplicates it. */
  lemma LeastIsAccepted(u: set<Envelope>, k: RecordKey, winning: int, stale: seq<Envelope>, sorted: seq<Envelope>)
    requires ReceiptsAgree(u) && TwoLayers(u, k, winning, stale, sorted) && StrictlySorted(ReceiptKey, sorted)
    requires forall e, f :: e in sorted && f in sorted ==> e.payloadHash == f.payloadHash
    ensures DispositionIn(u, sorted[0]) == Accepted
    ensures forall e :: e in sorted[1..] ==> DispositionIn(u, e) == Duplicate
    ensures forall e :: e in sorted ==> !Contested(u, e)
  {
    assert sorted[0] in sorted;
    forall e | e in sorted
      ensures !Contested(u, e)
    {
      forall f | f in u && IdentityOf(f) == IdentityOf(e) && SourceVersion(f) == SourceVersion(e)
        ensures f.payloadHash == e.payloadHash
      {
        assert f in sorted;
      }
    }
    forall f | f in u && VariantOf(f) == VariantOf(sorted[0])
      ensures f == sorted[0] || StringLess(sorted[0].receiptId, f.receiptId)
    {
      assert f in sorted;
      var j :| 0 <= j < |sorted| && sorted[j] == f;
      if j > 0 {
        ReceiptKeyOrder(sorted[0], f);
      }
    }
    forall e | e in sorted[1..]
      ensures !First(u, e)
    {
      var j :| 1 <= j < |sorted| && sorted[j] == e;
      ReceiptKeyOrder(sorted[0], e);
      StringLessOrder(sorted[0].receiptId, e.receiptId, sorted[0].receiptId);
      assert VariantOf(sorted[0]) == VariantOf(e);
    }
  }

  lemma ReceiptKeyOrder(e: Envelope, f: Envelope)
    requires KeyLess(ReceiptKey(e), ReceiptKey(f))
    ensures StringLess(e.receiptId, f.receiptId)
  {
    var a, b := ReceiptKey(e), ReceiptKey(f);
    assert a[0] == S(e.receiptId) && b[0] == S(f.receiptId);
    assert a[1..] == [] && b[1..] == [] && !KeyLess([], []);
  }

  // ---- The whole pass ----

  ghost predicate EvidenceSoFar(u: set<Envelope>, visited: set<RecordKey>, order: seq<Envelope>,
                                evidence: seq<Evidence>) {
    NoRepeats(order) && (forall e :: e in order <==> e in u && IdentityOf(e) in visited) &&
    evidence == Map(EvidenceIn(u), order)
  }

  ghost predicate RecordsSoFar(u: set<Envelope>, visited: set<RecordKey>, records: seq<FinancialRecord>) {
    DistinctBy(KeyOf, records) && forall x :: x in records <==> AcceptedRecord(u, x) && KeyOf(x) in visited
  }

  function ConflictIdentity(c: Conflict): RecordKey { c.key }

  ghost predicate ConflictsSoFar(u: set<Envelope>, visited: set<RecordKey>, conflicts: seq<Conflict>) {
    DistinctBy(ConflictIdentity, conflicts) && (forall c :: c in conflicts ==> ConflictOf(u, c) && c.key in visited) &&
    forall k, e :: WinsConflict(u, k, e) && k in visited ==> HasConflict(conflicts, k)
  }

  lemma EvidenceMore(u: set<Envelope>, visited: set<RecordKey>, k: RecordKey, order: seq<Envelope>,
                     evidence: seq<Evidence>,
                     more: seq<Envelope>, moreEvidence: seq<Evidence>)
    requires EvidenceSoFar(u, visited, order, evidence) && k !in visited
    requires OutcomeEvidence(u, k, more, moreEvidence)
    ensures EvidenceSoFar(u, visited + {k}, order + more, evidence + moreEvidence)
  {
    var all := order + more;
    forall i, j | 0 <= i < j < |all|
      ensures all[i] != all[j]
    {
      if i < |order| <= j {
        assert order[i] in order && more[j - |order|] in more;
      }
    }
    MapConcat(EvidenceIn(u), order, more);
  }

  lemma RecordsMore(u: set<Envelope>, visited: set<RecordKey>, k: RecordKey, records: seq<FinancialRecord>,
                    more: seq<FinancialRecord>, conflicts: seq<Conflict>)
    requires RecordsSoFar(u, visited, records) && k !in visited
    requires OutcomeResults(u, k, more, conflicts)
    ensures RecordsSoFar(u, visited + {k}, records + more)
  {
    DistinctJoin(KeyOf, records, more);
  }

  lemma ConflictsMore(u: set<Envelope>, visited: set<RecordKey>, k: RecordKey, conflicts: seq<Conflict>,
                      records: seq<FinancialRecord>, more: seq<Conflict>)
    requires ConflictsSoFar(u, visited, conflicts) && k !in visited && OutcomeResults(u, k, records, more)
    ensures ConflictsSoFar(u, visited + {k}, conflicts + more)
  {
    DistinctJoin(ConflictIdentity, conflicts, more);
    forall j, e | WinsConflict(u, j, e) && j in visited + {k}
      ensures HasConflict(conflicts + more, j)
    {
      if j == k {
        assert more[0] in conflicts + more;
      } else {
        var c :| c in conflicts && c.key == j;
        assert c in conflicts + more;
      }
    }
  }

  lemma EvidenceDone(u: set<Envelope>, visited: set<RecordKey>, order: seq<Envelope>, evidence: seq<Evidence>)
    requires ReceiptsAgree(u) && EvidenceSoFar(u, visited, order, evidence) && forall e :: e in u ==>
      IdentityOf(e) in visited
    ensures StrictlySorted(EvidenceKey, Sort(EvidenceKey, evidence))
    ensures forall x :: x in Sort(EvidenceKey, evidence) <==> ClassifiedIn(u, x)
  {
    forall i, j | 0 <= i < j < |evidence|
      ensures EvidenceKey(evidence[i]) != EvidenceKey(evidence[j])
    {
      assert order[i] in order && order[j] in order && order[i].receiptId != order[j].receiptId;
      assert evidence[i].receiptId == order[i].receiptId && evidence[j].receiptId == order[j].receiptId;
      if EvidenceKey(evidence[i]) == EvidenceKey(evidence[j]) {
        EvidenceKeyReceipt(evidence[i], evidence[j]);
      }
    }
    SortStrict(EvidenceKey, evidence);
    SortMembers(EvidenceKey, evidence);
    forall x
      ensures x in evidence <==> ClassifiedIn(u, x)
    {
      MapMember(EvidenceIn(u), order, x);
    }
  }

  lemma RecordsDone(u: set<Envelope>, visited: set<RecordKey>, records: seq<FinancialRecord>)
    requires RecordsSoFar(u, visited, records) && forall e :: e in u ==> IdentityOf(e) in visited
    ensures StrictlySorted(RecordIdentityKey, Sort(RecordIdentityKey, records))
    ensures forall x :: x in Sort(RecordIdentityKey, records) <==> AcceptedRecord(u, x)
  {
    forall i, j | 0 <= i < j < |records|
      ensures RecordIdentityKey(records[i]) != RecordIdentityKey(records[j])
    {
      assert KeyOf(records[i]) != KeyOf(records[j]);
      if IdentityKey(KeyOf(records[i])) == IdentityKey(KeyOf(records[j])) {
        IdentityKeyInjective(KeyOf(records[i]), KeyOf(records[j]));
      }
    }
    SortStrict(RecordIdentityKey, records);
    SortMembers(RecordIdentityKey, records);
  }

  lemma ConflictsDone(u: set<Envelope>, visited: set<RecordKey>, conflicts: seq<Conflict>)
    requires ConflictsSoFar(u, visited, conflicts) && forall e :: e in u ==> IdentityOf(e) in visited
    ensures StrictlySorted(ConflictKey, Sort(ConflictKey, conflicts))
    ensures forall c :: c in Sort(ConflictKey, conflicts) ==> ConflictOf(u, c)
    ensures forall k, e :: WinsConflict(u, k, e) ==> HasConflict(Sort(ConflictKey, conflicts), k)
  {
    forall i, j | 0 <= i < j < |conflicts|
      ensures ConflictKey(conflicts[i]) != ConflictKey(conflicts[j])
    {
      var a, b := ConflictKey(conflicts[i]), ConflictKey(conflicts[j]);
      assert a[..2] == IdentityKey(conflicts[i].key) && b[..2] == IdentityKey(conflicts[j].key);
      assert ConflictIdentity(conflicts[i]) != ConflictIdentity(conflicts[j]);
      if a == b {
        IdentityKeyInjective(conflicts[i].key, conflicts[j].key);
      }
    }
    SortStrict(ConflictKey, conflicts);
    SortMembers(ConflictKey, conflicts);
    forall k, e | WinsConflict(u, k, e)
      ensures HasConflict(Sort(ConflictKey, conflicts), k)
    {
      assert k in visited;
      var c :| c in conflicts && c.key == k;
      assert c in Sort(ConflictKey, conflicts);
    }
  }

  /** Classifies every identity in turn; fails exactly when one receipt id names two different receipts. */
  method Canonicalize(es: seq<Envelope>) returns (r: Result<CanonicalizationResult, CanonicalizationError>)
    requires FaithfulHashes(Elements(es))
    ensures r.Failure? <==> exists e, f :: e in es && f in es && e.receiptId == f.receiptId && e != f
    ensures r.Failure? <==> !ReceiptsAgree(Elements(es))
    ensures r.Success? ==> IsCanonicalization(Elements(es), r.value)
  {
    var unique := DeduplicateReceipts(es);
    if unique.Failure? {
      return Failure(unique.error);
    }
    ghost var u := Elements(es);
    assert forall e :: e in unique.value <==> e in u;
    var grouped := GroupBy(IdentityOf, unique.value);
    forall j, k | j in grouped.Keys && k in grouped.Keys && IdentityKey(j) == IdentityKey(k)
      ensures j == k
    {
      IdentityKeyInjective(j, k);
    }
    var identities := SortedList(IdentityKey, grouped.Keys);
    var result := ClassifyAll(identities, unique.value, grouped, u);
    r := Success(result);
  }

  ghost predicate Identifies(identities: seq<RecordKey>, unique: seq<Envelope>) {
    forall k :: k in identities <==> exists i :: 0 <= i < |unique| && IdentityOf(unique[i]) == k
  }

  method ClassifyAll(identities: seq<RecordKey>, unique: seq<Envelope>, grouped: map<RecordKey, seq<Envelope>>,
                     ghost u: set<Envelope>)
    returns (r: CanonicalizationResult)
    requires ReceiptsAgree(u) && FaithfulHashes(u) && NoRepeats(unique) && forall e :: e in unique <==> e in u
    requires StrictlySorted(IdentityKey, identities) && Grouped(IdentityOf, unique, grouped)
    requires Identifies(identities, unique)
    ensures IsCanonicalization(u, r)
  {
    StrictNoRepeats(IdentityKey, identities);
    ghost var order: seq<Envelope> := [];
    var records: seq<FinancialRecord>, evidence: seq<Evidence>, conflicts: seq<Conflict> := [], [], [];
    for i := 0 to |identities|
      invariant Progress(u, Elements(identities[..i]), order, evidence, records, conflicts)
    {
      var k := identities[i];
      ghost var visited := Elements(identities[..i]);
      assert Elements(identities[..i + 1]) == visited + {k};
      var group := Get(grouped, k);
      GroupOf(u, identities, k, unique, group);
      ghost var more: seq<Envelope>;
      var moreEvidence: seq<Evidence>, moreRecords: seq<FinancialRecord>, moreConflicts: seq<Conflict>;
      more, moreEvidence, moreRecords, moreConflicts := ClassifyIdentity(k, group, u);
      Progressed(u, visited, k, order, evidence, records, conflicts, more, moreEvidence, moreRecords, moreConflicts);
      order, evidence, records, conflicts := order + more, evidence + moreEvidence, records + moreRecords,
        conflicts + moreConflicts;
    }
    assert identities[..|identities|] == identities;
    AllVisited(u, unique, identities);
    ProgressDone(u, Elements(identities), order, evidence, records, conflicts);
    r := CanonicalizationResult(Sort(RecordIdentityKey, records), Sort(EvidenceKey, evidence),
                                Sort(ConflictKey, conflicts));
  }

  ghost predicate Progress(u: set<Envelope>, visited: set<RecordKey>, order: seq<Envelope>, evidence: seq<Evidence>,
                           records: seq<FinancialRecord>, conflicts: seq<Conflict>)
  {
    EvidenceSoFar(u, visited, order, evidence) && RecordsSoFar(u, visited, records) &&
    ConflictsSoFar(u, visited, conflicts)
  }

  lemma Progressed(u: set<Envelope>, visited: set<RecordKey>, k: RecordKey, order: seq<Envelope>,
                   evidence: seq<Evidence>,
                   records: seq<FinancialRecord>, conflicts: seq<Conflict>, more: seq<Envelope>,
                   moreEvidence: seq<Evidence>,
                   moreRecords: seq<FinancialRecord>, moreConflicts: seq<Conflict>)
    requires Progress(u, visited, order, evidence, records, conflicts) && k !in visited
    requires IsOutcome(u, k, more, moreEvidence, moreRecords, moreConflicts)
    ensures Progress(u, visited + {k}, order + more, evidence + moreEvidence, records + moreRecords,
                     conflicts + moreConflicts)
  {
    EvidenceMore(u, visited, k, order, evidence, more, moreEvidence);
    RecordsMore(u, visited, k, records, moreRecords, moreConflicts);
    ConflictsMore(u, visited, k, conflicts, moreRecords, moreConflicts);
  }

  lemma ProgressDone(u: set<Envelope>, visited: set<RecordKey>, order: seq<Envelope>, evidence: seq<Evidence>,
                     records: seq<FinancialRecord>, conflicts: seq<Conflict>)
    requires ReceiptsAgree(u) && Progress(u, visited, order, evidence, records, conflicts)
    requires forall e :: e in u ==> IdentityOf(e) in visited
    ensures IsCanonicalization(u,
                               CanonicalizationResult(Sort(RecordIdentityKey, records), Sort(EvidenceKey, evidence),
                                                      Sort(ConflictKey, conflicts)))
  {
    EvidenceDone(u, visited, order, evidence);
    RecordsDone(u, visited, records);
    ConflictsDone(u, visited, conflicts);
  }

  lemma AllVisited(u: set<Envelope>, unique: seq<Envelope>, identities: seq<RecordKey>)
    requires forall e :: e in unique <==> e in u
    requires Identifies(identities, unique)
    ensures forall e :: e in u ==> IdentityOf(e) in Elements(identities)
  {
    forall e | e in u
      ensures IdentityOf(e) in Elements(identities)
    {
      var i :| 0 <= i < |unique| && unique[i] == e;
      assert IdentityOf(unique[i]) == IdentityOf(e);
    }
  }

  lemma GroupOf(u: set<Envelope>, identities: seq<RecordKey>, k: RecordKey, unique: seq<Envelope>, group: seq<Envelope>)
    requires NoRepeats(unique) && (forall e :: e in unique <==> e in u) && group == Filter(KeyIs(IdentityOf, k), unique)
    requires k in identities && Identifies(identities, unique)
    ensures IsGroup(u, k, group)
  {
    GroupMembers(IdentityOf, unique, k);
    var i :| 0 <= i < |unique| && IdentityOf(unique[i]) == k;
    assert unique[i] in group;
  }

  // ---- Replay ----

  /** The receipts the ledger holds after a batch: all of them, or none when one contradicts the ledger. */
  ghost function Absorbed(held: set<Envelope>, batch: seq<Envelope>): set<Envelope> {
    if ReceiptsAgree(held + Elements(batch)) then held + Elements(batch) else held
  }

  /** `m` stores exactly `held`, each receipt under its own id. */
  ghost predicate Holds(m: map<string, Envelope>, held: set<Envelope>) {
    (forall id :: id in m ==> m[id].receiptId == id && m[id] in held) &&
    (forall e :: e in held ==> e.receiptId in m && m[e.receiptId] == e)
  }

  /** The loop over a batch, on a copy of the ledger. */
  method AddReceipts(receipts: map<string, Envelope>, batch: seq<Envelope>, ghost held: set<Envelope>)
    returns (r: Result<map<string, Envelope>, CanonicalizationError>)
    requires Holds(receipts, held) && FaithfulHashes(held + Elements(batch))
    ensures r.Failure? <==> !ReceiptsAgree(held + Elements(batch))
    ensures r.Success? ==> Holds(r.value, held + Elements(batch)) && |r.value| >= |receipts|
  {
    var candidate := receipts;
    for i := 0 to |batch|
      invariant Holds(candidate, held + Elements(batch[..i])) && |candidate| >= |receipts|
    {
      var e := batch[i];
      assert Elements(batch[..i + 1]) == Elements(batch[..i]) + {e};
      if e.receiptId in candidate {
        var existing := candidate[e.receiptId];
        assert existing in held + Elements(batch) && e in Elements(batch);
        if VariantOf(existing) != VariantOf(e) {
          return Failure(ReceiptConflict);
        }
        assert existing == e;
      } else {
        candidate := candidate[e.receiptId := e];
      }
    }
    assert batch[..|batch|] == batch;
    r := Success(candidate);
  }

  lemma HeldContents(m: map<string, Envelope>, held: set<Envelope>)
    requires Holds(m, held)
    ensures (set id | id in m :: m[id]) == held && |held| == |m|
  {
    ContentCount(m);
    var values := set id | id in m :: m[id];
    assert forall e :: e in held ==> m[e.receiptId] in values;
  }

  lemma ReceiptsClash(u: set<Envelope>)
    ensures !ReceiptsAgree(u) <==> exists e, f :: e in u && f in u && e.receiptId == f.receiptId && e != f
  {
  }

  /** Incrementally accumulated source evidence. */
  class ReplayLedger {
    var receipts: map<string, Envelope>

    ghost predicate Valid()
      reads this
    {
      Holds(receipts, Contents())
    }

    ghost function Contents(): set<Envelope>
      reads this
    {
      set id | id in receipts :: receipts[id]
    }

    constructor ()
      ensures Valid() && Contents() == {}
    {
      receipts := map[];
    }

    /** Adds a batch atomically and counts the receipts that were new. */
    method Apply(batch: seq<Envelope>) returns (r: Result<nat, CanonicalizationError>)
      requires Valid() && FaithfulHashes(Contents() + Elements(batch))
      modifies this
      ensures Valid() && Contents() == Absorbed(old(Contents()), batch)
      ensures Contents() == old(Contents()) + if r.Success? then Elements(batch) else {}
      ensures var all := old(Contents()) + Elements(batch);
        r.Failure? <==> exists e, f :: e in all && f in all && e.receiptId == f.receiptId && e != f
      ensures r.Failure? ==> receipts == old(receipts)
      ensures r.Success? ==> r.value == |Contents()| - |old(Contents())|
    {
      ReceiptsClash(Contents() + Elements(batch));
      var candidate := AddReceipts(receipts, batch, Contents());
      if candidate.Failure? {
        return Failure(candidate.error);
      }
      HeldContents(receipts, Contents());
      HeldContents(candidate.value, Contents() + Elements(batch));
      r := Success(|candidate.value| - |receipts|);
      receipts := candidate.value;
    }

    /** The stored receipts in receipt-id order. */
    method Receipts() returns (es: seq<Envelope>)
      requires Valid()
      ensures Elements(es) == Contents() && StrictlySorted(ReceiptKey, es)
    {
      forall i, j | i in receipts.Keys && j in receipts.Keys && StringKey(i) == StringKey(j)
        ensures i == j
      {
        assert StringKey(i)[0] == StringKey(j)[0];
      }
      var ids := SortedList(StringKey, receipts.Keys);
      es := [];
      for i := 0 to |ids|
        invariant |es| == i && forall j :: 0 <= j < i ==> es[j] == receipts[ids[j]]
      {
        assert ids[i] in ids;
        es := es + [receipts[ids[i]]];
      }
      forall e
        ensures e in es <==> e in Contents()
      {
        if e in Contents() {
          var id :| id in receipts && receipts[id] == e;
          assert id in ids;
          var j :| 0 <= j < |ids| && ids[j] == id;
          assert es[j] == e;
        }
        if e in es {
          var j :| 0 <= j < |es| && es[j] == e;
          assert ids[j] in ids;
        }
      }
      forall i, j | 0 <= i < j < |es|
        ensures KeyLess(ReceiptKey(es[i]), ReceiptKey(es[j]))
      {
        assert ids[i] in ids && ids[j] in ids && KeyLess(StringKey(ids[i]), StringKey(ids[j]));
      }
    }

    /** Canonicalization over all evidence received so far; it never fails. */
    method CurrentResult() returns (r: Result<CanonicalizationResult, CanonicalizationError>)
      requires Valid() && FaithfulHashes(Contents())
      ensures r.Success? && IsCanonicalization(Contents(), r.value)
    {
      var es := Receipts();
      assert ReceiptsAgree(Contents());
      r := Canonicalize(es);
    }
  }

  lemma {:induction false} ContentCount(m: map<string, Envelope>)
    requires forall id :: id in m ==> m[id].receiptId == id
    ensures |set id | id in m :: m[id]| == |m|
    decreases |m|
  {
    if m != map[] {
      var id :| id in m;
      var rest := m - {id};
      assert rest.Keys == m.Keys - {id};
      assert |rest.Keys| == |m.Keys| - 1;
      ContentCount(rest);
      var whole, part := set i | i in m :: m[i], set i | i in rest :: rest[i];
      forall e
        ensures e in whole <==> e in part + {m[id]}
      {
        if e in whole {
          var i :| i in m && m[i] == e;
          assert i != id ==> i in rest && rest[i] == e;
        }
        if e in part {
          var i :| i in rest && rest[i] == e;
          assert i in m && m[i] == e && e != m[id];
        }
      }
      assert whole == part + {m[id]} && m[id] !in part;
      assert |whole| == |part| + 1;
    }
  }

  ghost function Replayed(held: set<Envelope>, batches: seq<seq<Envelope>>): set<Envelope> {
    if batches == [] then held else Absorbed(Replayed(held, batches[..|batches| - 1]), batches[|batches| - 1])
  }

  function Whole(batch: seq<Envelope>): seq<Envelope> { batch }

  /** However a consistent stream of receipts is cut into batches, no batch is rejected and the ledger ends
      with exactly the receipts of the whole stream, so its result is the canonicalization of the stream. */
  lemma {:induction false} SplitIndependence(batches: seq<seq<Envelope>>)
    requires ReceiptsAgree(Elements(FlatMap(Whole, batches)))
    ensures Replayed({}, batches) == Elements(FlatMap(Whole, batches))
    ensures forall i :: 0 <= i < |batches| ==> ReceiptsAgree(Replayed({}, batches[..i]) + Elements(batches[i]))
  {
    if batches != [] {
      var init, last := batches[..|batches| - 1], batches[|batches| - 1];
      assert batches == init + [last];
      FlatMapAppend(Whole, init, last);
      assert Elements(FlatMap(Whole, batches)) == Elements(FlatMap(Whole, init)) + Elements(last);
      SplitIndependence(init);
      forall i | 0 <= i < |batches|
        ensures ReceiptsAgree(Replayed({}, batches[..i]) + Elements(batches[i]))
      {
        if i < |init| {
          assert batches[..i] == init[..i];
        } else {
          assert batches[..i] == init;
        }
      }
    }
  }
}
