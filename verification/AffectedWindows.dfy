/** Recovery planning: a graph of relationships and shared dates, its closure from the changed
    records, and the date windows the closure touches. */
module AffectedWindows {
  import opened Sequences
  import opened Contracts

  datatype RecoveryScope = ScopeNone | ScopeWindows | ScopeFull

  datatype ChangeKind = NewFact | HigherVersionCorrection | SameVersionConflict | ExactDuplicate | StaleVersion

  /** Half-open: start <= day < end. */
  datatype DateWindow = DateWindow(start: int, end: int)

  datatype Reason =
    | MissingRelationshipId
    | CaptureDateUnresolved
    | RefundDateUnresolved
    | MovementTypeUnresolved
    | PayoutDateUnresolved
    | RelatedRecordMissing(key: RecordKey)
    | ReportCompletenessChanged
    | ChangeEvidenceMissing

  datatype Plan = Plan(scope: RecoveryScope, orderIds: seq<string>, payoutIds: seq<string>, payoutDates: seq<int>,
                       windows: seq<DateWindow>, sourceKeys: seq<RecordKey>, reasons: set<Reason>)

  datatype PlanError = EmptyRecordId

  /** The attributes the planner reads off a record; any of them may be absent. */
  datatype Fact = Fact(kind: EntityType, id: string, orderId: Option<string>, paymentId: Option<string>,
                       payoutId: Option<string>,
                       movement: Option<MovementType>, movementId: Option<string>, effective: bool,
                       availableOn: Option<int>, payoutDate: Option<int>)

  function FactOf(r: FinancialRecord): Fact {
    match r
    case OrderRecord(o) => Fact(OrderType, o.orderId, None, None, None, None, None, false, None, None)
    case PaymentRecord(p) => Fact(PaymentType, p.paymentId, Some(p.orderId), None, None, None, None,
                                  p.status == Captured, p.availableOn, None)
    case RefundRecord(f) => Fact(RefundType, f.refundId, None, Some(f.paymentId), None, None, None,
                                 f.status == Succeeded, f.availableOn, None)
    case FeeRecord(f) => Fact(FeeType, f.feeId, None, Some(f.paymentId), None, None, None, false, Some(f.availableOn),
                              None)
    case LineRecord(l) => Fact(SettlementLineType, l.lineId, None, None, Some(l.payoutId), Some(l.kind),
                               Some(l.movementId), false, None, None)
    case PayoutRecord(p) => Fact(PayoutType, p.payoutId, None, None, None, None, None, false, None, Some(p.payoutDate))
  }

  function FactKey(f: Fact): RecordKey { RecordKey(f.kind, f.id) }

  // ---- What one record contributes ----

  predicate HasId(id: Option<string>) { id.Some? && id.value != "" }

  function Parent(t: EntityType, id: Option<string>): set<RecordKey> {
    if HasId(id) then {RecordKey(t, id.value)} else {}
  }

  function Parents(f: Fact): set<RecordKey> {
    match f.kind
    case OrderType => {}
    case PaymentType => Parent(OrderType, f.orderId)
    case RefundType => Parent(PaymentType, f.paymentId)
    case FeeType => Parent(PaymentType, f.paymentId)
    case SettlementLineType =>
      Parent(PayoutType, f.payoutId) + if f.movement.Some? then Parent(MovementEntity(f.movement.value), f.movementId)
      else {}
    case PayoutType => {}
  }

  function FactDay(f: Fact): Option<int> {
    match f.kind
    case PaymentType => f.availableOn
    case RefundType => f.availableOn
    case PayoutType => f.payoutDate
    case _ => None
  }

  function Unlinked(id: Option<string>): set<Reason> {
    if HasId(id) then {} else {MissingRelationshipId}
  }

  function Undated(available: Option<int>, effective: bool, unresolved: Reason): set<Reason> {
    if available.None? && effective then {unresolved} else {}
  }

  function Issues(f: Fact): set<Reason> {
    match f.kind
    case OrderType => {}
    case PaymentType => Unlinked(f.orderId) + Undated(f.availableOn, f.effective, CaptureDateUnresolved)
    case RefundType => Unlinked(f.paymentId) + Undated(f.availableOn, f.effective, RefundDateUnresolved)
    case FeeType => Unlinked(f.paymentId)
    case SettlementLineType => Unlinked(f.payoutId) + if f.movement.None? then {MovementTypeUnresolved}
      else Unlinked(f.movementId)
    case PayoutType => if f.payoutDate.None? then {PayoutDateUnresolved} else {}
  }

  // ---- The graph of a set of records ----

  ghost predicate Known(facts: set<Fact>, k: RecordKey) {
    exists f :: f in facts && FactKey(f) == k
  }

  ghost predicate Linked(facts: set<Fact>, a: RecordKey, b: RecordKey) {
    exists f :: f in facts && ((FactKey(f) == a && b in Parents(f)) || (FactKey(f) == b && a in Parents(f)))
  }

  ghost predicate Dated(facts: set<Fact>, k: RecordKey, d: int) {
    exists f :: f in facts && FactKey(f) == k && FactDay(f) == Some(d)
  }

  ghost predicate Flagged(facts: set<Fact>, k: RecordKey, r: Reason) {
    exists f :: f in facts && FactKey(f) == k && r in Issues(f)
  }

  /** Closed under relationships in both directions and under sharing a date. */
  ghost predicate Closed(facts: set<Fact>, keys: set<RecordKey>) {
    (forall a, b :: a in keys && Linked(facts, a, b) ==> b in keys) &&
    (forall a, b, d :: a in keys && Dated(facts, a, d) && Dated(facts, b, d) ==> b in keys)
  }

  ghost function Universe(facts: set<Fact>, seeds: set<RecordKey>): set<RecordKey> {
    seeds + (set f | f in facts :: FactKey(f)) + (set f, k | f in facts && k in Parents(f) :: k)
  }

  /** The intersection of all closed sets around the seeds. */
  ghost function Reach(facts: set<Fact>, seeds: set<RecordKey>): set<RecordKey> {
    set k | k in Universe(facts, seeds) && forall s: set<RecordKey> :: seeds <= s && Closed(facts, s) ==> k in s
  }

  ghost function DatesOf(facts: set<Fact>, keys: set<RecordKey>): set<int> {
    set f | f in facts && FactKey(f) in keys && FactDay(f).Some? :: FactDay(f).value
  }

  ghost function ReasonsOf(facts: set<Fact>, keys: set<RecordKey>): set<Reason> {
    (set f, r | f in facts && FactKey(f) in keys && r in Issues(f) :: r) +
    (set k | k in keys && !Known(facts, k) :: RelatedRecordMissing(k))
  }

  /** `Reach` is itself closed, so it is the least closed set containing the seeds. */
  lemma ReachIsLeastClosed(facts: set<Fact>, seeds: set<RecordKey>)
    ensures seeds <= Reach(facts, seeds) && Closed(facts, Reach(facts, seeds))
    ensures forall s: set<RecordKey> :: seeds <= s && Closed(facts, s) ==> Reach(facts, seeds) <= s
  {
    var reach := Reach(facts, seeds);
    forall a, b | a in reach && Linked(facts, a, b)
      ensures b in reach
    {
      assert b in Universe(facts, seeds);
    }
    forall a, b, d | a in reach && Dated(facts, a, d) && Dated(facts, b, d)
      ensures b in reach
    {
      assert b in Universe(facts, seeds);
    }
  }

  lemma LeastClosed(facts: set<Fact>, seeds: set<RecordKey>, keys: set<RecordKey>)
    requires seeds <= keys && Closed(facts, keys) && keys <= Reach(facts, seeds)
    ensures keys == Reach(facts, seeds)
  {
    ReachIsLeastClosed(facts, seeds);
  }

  /** More evidence never shrinks the plan's closure. */
  lemma ReachMonotone(facts: set<Fact>, more: set<Fact>, seeds: set<RecordKey>, moreSeeds: set<RecordKey>)
    requires facts <= more && seeds <= moreSeeds
    ensures Reach(facts, seeds) <= Reach(more, moreSeeds)
  {
    ReachIsLeastClosed(facts, seeds);
    ReachIsLeastClosed(more, moreSeeds);
    var reach := Reach(more, moreSeeds);
    forall a, b | a in reach && Linked(facts, a, b)
      ensures b in reach
    {
      assert Linked(more, a, b);
    }
    forall a, b, d | a in reach && Dated(facts, a, d) && Dated(facts, b, d)
      ensures b in reach
    {
      assert Dated(more, a, d) && Dated(more, b, d);
    }
    assert Closed(facts, reach);
  }

  /** Everything one step from a visited record is visited or queued. */
  ghost predicate Frontier(facts: set<Fact>, visited: set<RecordKey>, pending: seq<RecordKey>) {
    (forall a, b :: a in visited && Linked(facts, a, b) ==> b in visited || b in pending) &&
    (forall a, b, d :: a in visited && Dated(facts, a, d) && Dated(facts, b, d) ==> b in visited || b in pending)
  }

  lemma FrontierDrops(facts: set<Fact>, visited: set<RecordKey>, rest: seq<RecordKey>, key: RecordKey)
    requires Frontier(facts, visited, rest + [key]) && key in visited
    ensures Frontier(facts, visited, rest)
  {
  }

  lemma FrontierDone(facts: set<Fact>, seeds: set<RecordKey>, keys: set<RecordKey>)
    requires Frontier(facts, keys, []) && seeds <= keys && keys <= Reach(facts, seeds)
    ensures keys == Reach(facts, seeds)
  {
    assert Closed(facts, keys);
    LeastClosed(facts, seeds, keys);
  }

  lemma NothingVisited(facts: set<Fact>, pending: seq<RecordKey>)
    ensures Frontier(facts, {}, pending) && DatesOf(facts, {}) == {} && ReasonsOf(facts, {}) == {}
  {
  }

  lemma FrontierGrows(facts: set<Fact>, visited: set<RecordKey>, rest: seq<RecordKey>, pending: seq<RecordKey>,
                      key: RecordKey)
    requires Frontier(facts, visited, rest + [key])
    requires forall k :: k in rest ==> k in pending
    requires forall b :: Linked(facts, key, b) ==> b in pending
    requires forall b, d :: Dated(facts, key, d) && Dated(facts, b, d) && d !in DatesOf(facts, visited) ==> b in pending
    ensures Frontier(facts, visited + {key}, pending)
  {
    var now := visited + {key};
    forall a, b, d | a in now && Dated(facts, a, d) && Dated(facts, b, d)
      ensures b in now || b in pending
    {
      if d in DatesOf(facts, visited) {
        var f :| f in facts && FactKey(f) in visited && FactDay(f) == Some(d);
        assert Dated(facts, FactKey(f), d);
        assert b in visited || b in rest + [key];
      }
    }
    forall a, b | a in now && Linked(facts, a, b)
      ensures b in now || b in pending
    {
      assert a in visited ==> b in visited || b in rest + [key];
    }
  }

  lemma DatesGrow(facts: set<Fact>, visited: set<RecordKey>, key: RecordKey, days: set<int>)
    requires forall d :: d in days <==> Dated(facts, key, d)
    ensures DatesOf(facts, visited + {key}) == DatesOf(facts, visited) + days
  {
    forall d | d in days
      ensures d in DatesOf(facts, visited + {key})
    {
      assert Dated(facts, key, d);
    }
    forall d | d in DatesOf(facts, visited + {key})
      ensures d in DatesOf(facts, visited) + days
    {
      var f :| f in facts && FactKey(f) in visited + {key} && FactDay(f) == Some(d);
      assert FactKey(f) == key ==> Dated(facts, key, d);
    }
  }

  lemma ReasonsGrow(facts: set<Fact>, visited: set<RecordKey>, key: RecordKey, flags: set<Reason>)
    requires forall r :: r in flags <==> Flagged(facts, key, r)
    ensures ReasonsOf(facts, visited + {key}) ==
      ReasonsOf(facts, visited) + flags + if Known(facts, key) then {} else {RelatedRecordMissing(key)}
  {
    var now := visited + {key};
    forall r | r in flags
      ensures r in ReasonsOf(facts, now)
    {
      assert Flagged(facts, key, r);
    }
    forall f, r | f in facts && FactKey(f) in now && r in Issues(f)
      ensures r in ReasonsOf(facts, visited) + flags
    {
      assert FactKey(f) == key ==> Flagged(facts, key, r);
    }
  }

  // ---- The mutable graph ----

  /** Only the entry of `k` grew, and by exactly `more`. */
  ghost predicate Gained<K(!new), V>(before: map<K, set<V>>, after: map<K, set<V>>, k: K, more: set<V>) {
    forall j :: At(after, j) == if j == k then At(before, j) + more else At(before, j)
  }

  /** `child` was linked with each of `parents`, in both directions. */
  ghost predicate Connected(before: map<RecordKey, set<RecordKey>>, after: map<RecordKey, set<RecordKey>>,
                            child: RecordKey, parents: set<RecordKey>)
  {
    forall a :: At(after, a) ==
      At(before, a) + (if a == child then parents else {}) + (if a in parents then {child} else {})
  }

  lemma ConnectedTwice(m0: map<RecordKey, set<RecordKey>>, m1: map<RecordKey, set<RecordKey>>,
                       m2: map<RecordKey, set<RecordKey>>,
                       child: RecordKey, p: set<RecordKey>, q: set<RecordKey>)
    requires Connected(m0, m1, child, p) && Connected(m1, m2, child, q)
    ensures Connected(m0, m2, child, p + q)
  {
    forall a
      ensures At(m2, a) == At(m0, a) + (if a == child then p + q else {}) + (if a in p + q then {child} else {})
    {
      assert At(m2, a) == At(m1, a) + (if a == child then q else {}) + (if a in q then {child} else {});
      assert At(m1, a) == At(m0, a) + (if a == child then p else {}) + (if a in p then {child} else {});
    }
  }

  lemma GainedTwice<K(!new), V>(m0: map<K, set<V>>, m1: map<K, set<V>>, m2: map<K, set<V>>, k: K, p: set<V>, q: set<V>)
    requires Gained(m0, m1, k, p) && Gained(m1, m2, k, q)
    ensures Gained(m0, m2, k, p + q)
  {
    forall j
      ensures At(m2, j) == if j == k then At(m0, j) + (p + q) else At(m0, j)
    {
      assert At(m1, j) == if j == k then At(m0, j) + p else At(m0, j);
    }
  }

  /** The dictionaries index exactly these records. */
  ghost predicate Indexes(facts: set<Fact>, neighbors: map<RecordKey, set<RecordKey>>, dates: map<RecordKey, set<int>>,
                          keysByDate: map<int, set<RecordKey>>, issues: map<RecordKey, set<Reason>>)
  {
    (forall a, b :: b in At(neighbors, a) <==> Linked(facts, a, b)) &&
    (forall k, d :: d in At(dates, k) <==> Dated(facts, k, d)) &&
    (forall d, k :: k in At(keysByDate, d) <==> Dated(facts, k, d)) &&
    (forall k, r :: r in At(issues, k) <==> Flagged(facts, k, r))
  }

  lemma IndexesAdded(facts: set<Fact>, f: Fact, n0: map<RecordKey, set<RecordKey>>, n1: map<RecordKey, set<RecordKey>>,
                     d0: map<RecordKey, set<int>>, d1: map<RecordKey, set<int>>,
                     k0: map<int, set<RecordKey>>, k1: map<int, set<RecordKey>>,
                     i0: map<RecordKey, set<Reason>>, i1: map<RecordKey, set<Reason>>)
    requires Indexes(facts, n0, d0, k0, i0)
    requires Connected(n0, n1, FactKey(f), Parents(f)) && Gained(i0, i1, FactKey(f), Issues(f))
    requires FactDay(f).None? ==> d1 == d0 && k1 == k0
    requires FactDay(f).Some? ==>
      Gained(d0, d1, FactKey(f), {FactDay(f).value}) && Gained(k0, k1, FactDay(f).value, {FactKey(f)})
    ensures Indexes(facts + {f}, n1, d1, k1, i1)
  {
    AddedFact(facts, f);
    var more, key := facts + {f}, FactKey(f);
    forall a, b
      ensures b in At(n1, a) <==> Linked(more, a, b)
    {
      assert At(n1, a) == At(n0, a) + (if a == key then Parents(f) else {}) + (if a in Parents(f) then {key} else {});
    }
    forall k, d
      ensures d in At(d1, k) <==> Dated(more, k, d)
      ensures k in At(k1, d) <==> Dated(more, k, d)
    {
      assert d in At(d0, k) <==> Dated(facts, k, d);
      assert k in At(k0, d) <==> Dated(facts, k, d);
    }
    forall k, r
      ensures r in At(i1, k) <==> Flagged(more, k, r)
    {
      assert r in At(i0, k) <==> Flagged(facts, k, r);
    }
  }

  /** The graph indexes records as they are added; `facts` remembers which ones. */
  class ImpactGraph {
    ghost var facts: set<Fact>
    var known: set<RecordKey>
    var neighbors: map<RecordKey, set<RecordKey>>
    var dates: map<RecordKey, set<int>>
    var keysByDate: map<int, set<RecordKey>>
    var issues: map<RecordKey, set<Reason>>

    ghost predicate Valid()
      reads this
    {
      (forall k :: k in known <==> Known(facts, k)) && Indexes(facts, neighbors, dates, keysByDate, issues)
    }

    constructor ()
      ensures Valid() && facts == {}
    {
      facts := {};
      known, neighbors, dates, keysByDate, issues := {}, map[], map[], map[], map[];
    }

    method Link(child: RecordKey, parentType: EntityType, parentId: Option<string>)
      modifies `neighbors, `issues
      ensures Connected(old(neighbors), neighbors, child, Parent(parentType, parentId))
      ensures Gained(old(issues), issues, child, Unlinked(parentId))
    {
      if !HasId(parentId) {
        issues := Put(issues, child, MissingRelationshipId);
        return;
      }
      var parent := RecordKey(parentType, parentId.value);
      neighbors := Put(neighbors, child, parent);
      neighbors := Put(neighbors, parent, child);
    }

    method AddDate(key: RecordKey, day: int)
      modifies `dates, `keysByDate
      ensures Gained(old(dates), dates, key, {day}) && Gained(old(keysByDate), keysByDate, day, {key})
    {
      dates := Put(dates, key, day);
      keysByDate := Put(keysByDate, day, key);
    }

    /** A payment or refund: its parent, and its date or the complaint that an effective one has none. */
    method IndexMovement(key: RecordKey, parentType: EntityType, parentId: Option<string>,
                         available: Option<int>, effective: bool, unresolved: Reason)
      modifies `neighbors, `dates, `keysByDate, `issues
      ensures Connected(old(neighbors), neighbors, key, Parent(parentType, parentId))
      ensures available.None? ==> dates == old(dates) && keysByDate == old(keysByDate)
      ensures available.Some? ==>
        Gained(old(dates), dates, key, {available.value}) && Gained(old(keysByDate), keysByDate, available.value, {key})
      ensures Gained(old(issues), issues, key, Unlinked(parentId) + Undated(available, effective, unresolved))
    {
      Link(key, parentType, parentId);
      ghost var linked := issues;
      if available.Some? {
        AddDate(key, available.value);
      } else if effective {
        issues := Put(issues, key, unresolved);
      }
      GainedTwice(old(issues), linked, issues, key, Unlinked(parentId), Undated(available, effective, unresolved));
    }

    /** A settlement line: its payout and the record its movement names. */
    method IndexLine(key: RecordKey, f: Fact)
      requires f.kind == SettlementLineType
      modifies `neighbors, `issues
      ensures Connected(old(neighbors), neighbors, key, Parents(f)) && Gained(old(issues), issues, key, Issues(f))
    {
      Link(key, PayoutType, f.payoutId);
      ghost var n1, i1 := neighbors, issues;
      if f.movement.None? {
        issues := Put(issues, key, MovementTypeUnresolved);
        GainedTwice(old(issues), i1, issues, key, Unlinked(f.payoutId), {MovementTypeUnresolved});
        assert Parents(f) == Parent(PayoutType, f.payoutId);
      } else {
        var t := MovementEntity(f.movement.value);
        Link(key, t, f.movementId);
        ConnectedTwice(old(neighbors), n1, neighbors, key, Parent(PayoutType, f.payoutId), Parent(t, f.movementId));
        GainedTwice(old(issues), i1, issues, key, Unlinked(f.payoutId), Unlinked(f.movementId));
      }
    }

    method Index(f: Fact)
      modifies `neighbors, `dates, `keysByDate, `issues
      ensures Connected(old(neighbors), neighbors, FactKey(f), Parents(f))
      ensures Gained(old(issues), issues, FactKey(f), Issues(f))
      ensures FactDay(f).None? ==> dates == old(dates) && keysByDate == old(keysByDate)
      ensures FactDay(f).Some? ==>
        Gained(old(dates), dates, FactKey(f), {FactDay(f).value}) &&
        Gained(old(keysByDate), keysByDate, FactDay(f).value, {FactKey(f)})
    {
      var key := FactKey(f);
      match f.kind {
        case OrderType =>
        case PaymentType => IndexMovement(key, OrderType, f.orderId, f.availableOn, f.effective, CaptureDateUnresolved);
        case RefundType => IndexMovement(key, PaymentType, f.paymentId, f.availableOn, f.effective,
                                         RefundDateUnresolved);
        case FeeType => Link(key, PaymentType, f.paymentId);
        case SettlementLineType => IndexLine(key, f);
        case PayoutType =>
          if f.payoutDate.None? {
            issues := Put(issues, key, PayoutDateUnresolved);
          } else {
            AddDate(key, f.payoutDate.value);
          }
      }
    }

    method Add(f: Fact)
      requires Valid()
      modifies this
      ensures Valid() && facts == old(facts) + {f}
    {
      Index(f);
      IndexesAdded(facts, f, old(neighbors), neighbors, old(dates), dates, old(keysByDate), keysByDate, old(issues),
                   issues);
      AddedFact(facts, f);
      known := known + {FactKey(f)};
      facts := facts + {f};
    }

    /** The worklist returns exactly the least closed set, its dates and its reasons. */
    method Expand(seeds: set<RecordKey>) returns (visited: set<RecordKey>, visitedDates: set<int>, reasons: set<Reason>)
      requires Valid()
      ensures visited == Reach(facts, seeds)
      ensures visitedDates == DatesOf(facts, visited)
      ensures reasons == ReasonsOf(facts, visited)
    {
      visited, visitedDates, reasons := {}, {}, {};
      var pending := ListOf(seeds);
      ghost var reach := Reach(facts, seeds);
      assert seeds <= reach && Closed(facts, reach) by {
        ReachIsLeastClosed(facts, seeds);
      }
      NothingVisited(facts, pending);
      while pending != []
        invariant forall k :: k in pending ==> k in reach
        invariant visited <= reach
        invariant forall k :: k in seeds ==> k in visited || k in pending
        invariant Frontier(facts, visited, pending)
        invariant visitedDates == DatesOf(facts, visited)
        invariant reasons == ReasonsOf(facts, visited)
        decreases reach - visited, |pending|
      {
        var key := pending[|pending| - 1];
        var rest := pending[..|pending| - 1];
        assert pending == rest + [key];
        if key in visited {
          FrontierDrops(facts, visited, rest, key);
          pending := rest;
          continue;
        }
        pending, visitedDates, reasons := Visit(key, rest, visited, visitedDates, reasons, reach);
        visited := visited + {key};
      }
      FrontierDone(facts, seeds, visited);
    }

    /** One newly visited record: its issues, its neighbours and everything sharing one of its new dates. */
    method Visit(key: RecordKey, rest: seq<RecordKey>, ghost visited: set<RecordKey>, seen: set<int>,
                 known': set<Reason>,
                 ghost reach: set<RecordKey>)
      returns (pending: seq<RecordKey>, visitedDates: set<int>, reasons: set<Reason>)
      requires Valid()
      requires Frontier(facts, visited, rest + [key])
      requires seen == DatesOf(facts, visited) && known' == ReasonsOf(facts, visited)
      requires Closed(facts, reach) && forall k :: k in rest + [key] ==> k in reach
      ensures Frontier(facts, visited + {key}, pending)
      ensures visitedDates == DatesOf(facts, visited + {key}) && reasons == ReasonsOf(facts, visited + {key})
      ensures forall k :: k in pending ==> k in reach
      ensures forall k :: k in rest ==> k in pending
    {
      reasons := known' + At(issues, key);
      if key !in known {
        reasons := reasons + {RelatedRecordMissing(key)};
      }
      ReasonsGrow(facts, visited, key, At(issues, key));
      var linked := ListOf(At(neighbors, key));
      DatesGrow(facts, visited, key, At(dates, key));
      assert key in rest + [key];
      pending, visitedDates := FollowDates(key, rest + linked, seen);
      FrontierGrows(facts, visited, rest, pending, key);
      forall k | k in pending
        ensures k in reach
      {
        if k in rest {
          assert k in rest + [key];
        } else if k in linked {
          assert Linked(facts, key, k);
        } else {
          var d :| d in At(dates, key) && k in At(keysByDate, d);
          assert Dated(facts, key, d) && Dated(facts, k, d);
        }
      }
    }

    method FollowDates(key: RecordKey, queue: seq<RecordKey>, seen: set<int>)
      returns (pending: seq<RecordKey>, visitedDates: set<int>)
      requires Valid()
      ensures visitedDates == seen + At(dates, key)
      ensures forall k :: k in queue ==> k in pending
      ensures forall k, d :: d in At(dates, key) && d !in seen && k in At(keysByDate, d) ==> k in pending
      ensures forall k :: k in pending ==> k in queue || exists d :: d in At(dates, key) && k in At(keysByDate, d)
    {
      pending, visitedDates := queue, seen;
      var days := ListOf(At(dates, key));
      ghost var followed: set<int> := {};
      for i := 0 to |days|
        invariant forall d :: d in followed <==> d in days[..i]
        invariant visitedDates == seen + followed
        invariant forall k :: k in queue ==> k in pending
        invariant forall k, d :: d in followed && d !in seen && k in At(keysByDate, d) ==> k in pending
        invariant forall k :: k in pending ==> k in queue || exists d :: d in followed && k in At(keysByDate, d)
      {
        assert days[i] !in days[..i];
        followed := followed + {days[i]};
        if days[i] in visitedDates {
          continue;
        }
        visitedDates := visitedDates + {days[i]};
        var sharing := ListOf(At(keysByDate, days[i]));
        pending := pending + sharing;
      }
      assert days[..|days|] == days;
      assert forall d :: d in followed <==> d in days;
      assert followed == At(dates, key);
    }
  }

  /** A set in some arbitrary order, as `list(set)` gives it. */
  method ListOf<T(==)>(s: set<T>) returns (l: seq<T>)
    ensures forall x :: x in l <==> x in s
    ensures NoRepeats(l)
  {
    l := [];
    var rest := s;
    while rest != {}
      invariant rest <= s
      invariant forall x :: x in l <==> x in s && x !in rest
      invariant NoRepeats(l)
      decreases rest
    {
      var x :| x in rest;
      l, rest := l + [x], rest - {x};
    }
  }

  lemma AddedFact(facts: set<Fact>, f: Fact)
    ensures forall k :: Known(facts + {f}, k) <==> Known(facts, k) || k == FactKey(f)
    ensures forall a, b :: Linked(facts + {f}, a, b) <==>
      Linked(facts, a, b) || (FactKey(f) == a && b in Parents(f)) || (FactKey(f) == b && a in Parents(f))
    ensures forall k, d :: Dated(facts + {f}, k, d) <==>
      Dated(facts, k, d) || (k == FactKey(f) && FactDay(f) == Some(d))
    ensures forall k, r :: Flagged(facts + {f}, k, r) <==> Flagged(facts, k, r) || (k == FactKey(f) && r in Issues(f))
  {
    var more := facts + {f};
    assert forall g :: g in more <==> g in facts || g == f;
  }

  // ---- Windows ----

  ghost predicate Covered(ws: seq<DateWindow>, d: int) {
    exists i :: 0 <= i < |ws| && ws[i].start <= d < ws[i].end
  }

  /** Nonempty windows in order, with at least one uncovered day between neighbours. */
  ghost predicate Separated(ws: seq<DateWindow>) {
    (forall i :: 0 <= i < |ws| ==> ws[i].start < ws[i].end) &&
    (forall i, j :: 0 <= i < j < |ws| ==> ws[i].end < ws[j].start)
  }

  lemma CoveredAppend(ws: seq<DateWindow>, w: DateWindow)
    ensures forall d :: Covered(ws + [w], d) <==> Covered(ws, d) || w.start <= d < w.end
  {
    var more := ws + [w];
    forall d
      ensures Covered(more, d) <==> Covered(ws, d) || w.start <= d < w.end
    {
      if Covered(ws, d) {
        var i :| 0 <= i < |ws| && ws[i].start <= d < ws[i].end;
        assert more[i] == ws[i];
      }
      if w.start <= d < w.end {
        assert more[|ws|] == w;
      }
    }
  }

  method CompressDates(days: seq<int>) returns (windows: seq<DateWindow>)
    ensures Separated(windows)
    ensures forall d :: Covered(windows, d) <==> d in days
  {
    var distinct := set d | d in days;
    var ordered := SortedList(IntKey, distinct);
    IntKeyOrder(ordered);
    assert forall d :: d in ordered <==> d in days;
    windows := [];
    if ordered == [] {
      assert forall d :: d !in ordered;
      return;
    }
    var start, previous := ordered[0], ordered[0];
    for i := 1 to |ordered|
      invariant previous == ordered[i - 1] && start <= previous
      invariant Separated(windows) && forall k :: 0 <= k < |windows| ==> windows[k].end < start
      invariant forall d :: d in ordered[..i] <==> Covered(windows, d) || start <= d <= previous
    {
      var current := ordered[i];
      assert ordered[..i + 1] == ordered[..i] + [current];
      if current != previous + 1 {
        CoveredAppend(windows, DateWindow(start, previous + 1));
        windows := windows + [DateWindow(start, previous + 1)];
        start := current;
      }
      previous := current;
    }
    assert ordered[..|ordered|] == ordered;
    CoveredAppend(windows, DateWindow(start, previous + 1));
    windows := windows + [DateWindow(start, previous + 1)];
  }

  /** The windows are determined by the days: no other separated list covers the same ones. */
  lemma {:induction false} WindowsUnique(a: seq<DateWindow>, b: seq<DateWindow>)
    requires Separated(a) && Separated(b)
    requires forall d :: Covered(a, d) <==> Covered(b, d)
    ensures a == b
  {
    assert a != [] ==> Covered(a, a[0].start);
    assert b != [] ==> Covered(b, b[0].start);
    if a != [] && b != [] {
      FirstWindowWithin(a, b);
      FirstWindowWithin(b, a);
      assert a[0] == b[0];
      forall d
        ensures Covered(a[1..], d) <==> Covered(b[1..], d)
      {
        CoveredTail(a, d);
        CoveredTail(b, d);
      }
      WindowsUnique(a[1..], b[1..]);
      assert a == [a[0]] + a[1..] && b == [b[0]] + b[1..];
    }
  }

  lemma CoveredTail(a: seq<DateWindow>, d: int)
    requires Separated(a) && a != []
    ensures Covered(a[1..], d) <==> Covered(a, d) && d >= a[0].end
  {
    if Covered(a, d) && d >= a[0].end {
      var i :| 0 <= i < |a| && a[i].start <= d < a[i].end;
      assert a[1..][i - 1] == a[i];
    }
  }

  lemma FirstWindowWithin(a: seq<DateWindow>, b: seq<DateWindow>)
    requires Separated(a) && Separated(b) && a != [] && b != []
    requires forall d :: Covered(a, d) <==> Covered(b, d)
    ensures b[0].start <= a[0].start && a[0].end <= b[0].end
  {
    assert a[0].start <= a[0].start < a[0].end;
    assert Covered(a, a[0].start);
    var i :| 0 <= i < |b| && b[i].start <= a[0].start < b[i].end;
    assert b[0].start <= a[0].start;
    assert Covered(b, b[0].start);
    var j :| 0 <= j < |a| && a[j].start <= b[0].start < a[j].end;
    assert j == 0;
    assert forall k :: 0 < k < |b| ==> b[0].end < b[k].start;
    assert !Covered(b, b[0].end);
    assert !Covered(a, b[0].end);
    assert !(a[0].start <= b[0].end < a[0].end);
  }

  // ---- The plan ----

  function EntityNameRank(t: EntityType): int {
    match t
    case FeeType => 0
    case OrderType => 1
    case PaymentType => 2
    case PayoutType => 3
    case RefundType => 4
    case SettlementLineType => 5
  }

  function SourceKey(k: RecordKey): Key { [N(EntityNameRank(k.kind)), S(k.id)] }

  ghost function FactSet(fs: seq<Fact>): set<Fact> { set f | f in fs }

  ghost function Seeds(changed: seq<Fact>): set<RecordKey> { set f | f in changed :: FactKey(f) }

  /** What a computed plan says, in terms of the evidence as a set. */
  ghost predicate IsPlan(facts: set<Fact>, seeds: set<RecordKey>, p: Plan) {
    var keys := Reach(facts, seeds);
    p.reasons == ReasonsOf(facts, keys) &&
    p.scope == (if p.reasons == {} then ScopeWindows else ScopeFull) &&
    StrictlySorted(SourceKey, p.sourceKeys) && (forall k :: k in p.sourceKeys <==> k in keys) &&
    StrictlySorted(StringKey, p.orderIds) && (forall id :: id in p.orderIds <==> RecordKey(OrderType, id) in keys) &&
    StrictlySorted(StringKey, p.payoutIds) && (forall id :: id in p.payoutIds <==> RecordKey(PayoutType, id) in keys) &&
    StrictlySorted(IntKey, p.payoutDates) && (forall d :: d in p.payoutDates <==> d in DatesOf(facts, keys)) &&
    Separated(p.windows) && (forall d :: Covered(p.windows, d) <==> d in DatesOf(facts, keys))
  }

  function Unplanned(scope: RecoveryScope, reasons: set<Reason>): Plan {
    Plan(scope, [], [], [], [], [], reasons)
  }

  method PlanAffectedWindows(before: seq<Fact>, after: seq<Fact>, changed: seq<Fact>, kind: ChangeKind,
                             canonicalChanged: bool, completenessChanged: bool)
    returns (r: Result<Plan, PlanError>)
    ensures completenessChanged ==> r == Success(Plan(ScopeFull, [], [], [], [], [], {ReportCompletenessChanged}))
    ensures !completenessChanged && (!canonicalChanged || kind in {ExactDuplicate, StaleVersion}) ==>
      r == Success(Plan(ScopeNone, [], [], [], [], [], {}))
    ensures !completenessChanged && canonicalChanged && kind !in {ExactDuplicate, StaleVersion} ==>
      if changed == [] then r == Success(Plan(ScopeFull, [], [], [], [], [], {ChangeEvidenceMissing}))
      else if exists f :: f in before + after + changed && f.id == "" then r == Failure(EmptyRecordId)
      else r.Success? && IsPlan(FactSet(before + after + changed), Seeds(changed), r.value)
  {
    if completenessChanged {
      return Success(Unplanned(ScopeFull, {ReportCompletenessChanged}));
    }
    if !canonicalChanged || kind in {ExactDuplicate, StaleVersion} {
      return Success(Unplanned(ScopeNone, {}));
    }
    if changed == [] {
      return Success(Unplanned(ScopeFull, {ChangeEvidenceMissing}));
    }
    var graph := new ImpactGraph();
    var records := before + after + changed;
    for i := 0 to |records|
      invariant graph.Valid() && graph.facts == FactSet(records[..i])
      invariant fresh(graph)
      invariant forall f :: f in records[..i] ==> f.id != ""
    {
      if records[i].id == "" {
        assert records[i] in records;
        return Failure(EmptyRecordId);
      }
      assert records[..i + 1] == records[..i] + [records[i]];
      graph.Add(records[i]);
    }
    assert records[..|records|] == records;
    var seeds := set f | f in changed :: FactKey(f);
    var keys, payoutDates, reasons := graph.Expand(seeds);
    var plan := Summarize(keys, payoutDates, reasons);
    r := Success(plan);
  }

  method Summarize(keys: set<RecordKey>, days: set<int>, reasons: set<Reason>) returns (p: Plan)
    ensures p.reasons == reasons && p.scope == if reasons == {} then ScopeWindows else ScopeFull
    ensures StrictlySorted(SourceKey, p.sourceKeys) && forall k :: k in p.sourceKeys <==> k in keys
    ensures StrictlySorted(StringKey, p.orderIds) && forall id :: id in p.orderIds <==> RecordKey(OrderType, id) in keys
    ensures StrictlySorted(StringKey, p.payoutIds) && forall id :: id in p.payoutIds <==>
      RecordKey(PayoutType, id) in keys
    ensures StrictlySorted(IntKey, p.payoutDates) && forall d :: d in p.payoutDates <==> d in days
    ensures Separated(p.windows) && forall d :: Covered(p.windows, d) <==> d in days
  {
    var orderIds := SortedIds(keys, OrderType);
    var payoutIds := SortedIds(keys, PayoutType);
    var dates := SortedList(IntKey, days);
    var windows := CompressDates(dates);
    var sourceKeys := SortedList(SourceKey, keys);
    p := Plan(if reasons == {} then ScopeWindows else ScopeFull, orderIds, payoutIds, dates, windows, sourceKeys,
              reasons);
  }

  method SortedIds(keys: set<RecordKey>, kind: EntityType) returns (ids: seq<string>)
    ensures StrictlySorted(StringKey, ids) && forall id :: id in ids <==> RecordKey(kind, id) in keys
  {
    var chosen := set k | k in keys && k.kind == kind :: k.id;
    forall id
      ensures id in chosen <==> RecordKey(kind, id) in keys
    {
      if RecordKey(kind, id) in keys {
        assert RecordKey(kind, id).id in chosen;
      }
    }
    ids := SortedList(StringKey, chosen);
  }

  /** The plan depends on the evidence only as a set: order and repetition of the inputs are immaterial. */
  lemma PlanUnique(facts: set<Fact>, seeds: set<RecordKey>, p: Plan, q: Plan)
    requires IsPlan(facts, seeds, p) && IsPlan(facts, seeds, q)
    ensures p == q
  {
    StrictlySortedUnique(SourceKey, p.sourceKeys, q.sourceKeys);
    StrictlySortedUnique(StringKey, p.orderIds, q.orderIds);
    StrictlySortedUnique(StringKey, p.payoutIds, q.payoutIds);
    var days := DatesOf(facts, Reach(facts, seeds));
    assert forall d :: d in p.payoutDates <==> d in days;
    assert forall d :: d in q.payoutDates <==> d in days;
    StrictlySortedUnique(IntKey, p.payoutDates, q.payoutDates);
    WindowsUnique(p.windows, q.windows);
  }
}
