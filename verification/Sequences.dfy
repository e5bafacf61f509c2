/** Ordered keys and the list operations the engine is built from: filtering, mapping, summing,
    grouping and Python's stable sort. */
module Sequences {

  datatype Option<+T> = None | Some(value: T)

  datatype Result<+T, +E> = Success(value: T) | Failure(error: E)

  // ---- Ordering: Python compares tuples of integers and strings lexicographically ----

  datatype Atom = N(n: int) | S(s: string)

  type Key = seq<Atom>

  predicate StringLess(a: string, b: string)
    decreases |a|
  {
    b != "" && (a == "" || a[0] < b[0] || (a[0] == b[0] && StringLess(a[1..], b[1..])))
  }

  predicate AtomLess(a: Atom, b: Atom) {
    match (a, b)
    case (N(m), N(n)) => m < n
    case (N(_), S(_)) => true
    case (S(_), N(_)) => false
    case (S(s), S(t)) => StringLess(s, t)
  }

  predicate KeyLess(a: Key, b: Key)
    decreases |a|
  {
    b != [] && (a == [] || AtomLess(a[0], b[0]) || (a[0] == b[0] && KeyLess(a[1..], b[1..])))
  }

  lemma {:induction false} StringLessOrder(a: string, b: string, c: string)
    ensures !StringLess(a, a)
    ensures a != b ==> StringLess(a, b) || StringLess(b, a)
    ensures StringLess(a, b) && StringLess(b, c) ==> StringLess(a, c)
    decreases |a| + |b| + |c|
  {
    if a != "" {
      StringLessOrder(a[1..], if b == "" then "" else b[1..], if c == "" then "" else c[1..]);
      if b != "" && a[0] == b[0] && a[1..] == b[1..] {
        assert a == [a[0]] + a[1..] && b == [b[0]] + b[1..];
      }
    }
  }

  /** `a` and `b` agree on their first `n` characters, and then `a` ends or continues with a smaller one. */
  predicate FirstDifference(a: string, b: string, n: nat) {
    n <= |a| && n < |b| && a[..n] == b[..n] && (n == |a| || a[n] < b[n])
  }

  /** Text is compared as a dictionary does. */
  lemma {:induction false} StringLessMeaning(a: string, b: string)
    ensures StringLess(a, b) <==> exists n: nat :: FirstDifference(a, b, n)
  {
    if a == "" || b == "" || a[0] != b[0] {
      assert FirstDifference(a, b, 0) <==> StringLess(a, b);
      assert forall n: nat :: n > 0 && n <= |a| && n < |b| && a[..n] == b[..n] ==> a[..n][0] == b[..n][0];
    } else {
      StringLessMeaning(a[1..], b[1..]);
      forall n: nat | n > 0
        ensures FirstDifference(a, b, n) <==> FirstDifference(a[1..], b[1..], n - 1)
      {
        if n <= |a| && n <= |b| {
          assert a[..n] == [a[0]] + a[1..][..n - 1] && b[..n] == [b[0]] + b[1..][..n - 1];
          assert a[..n][1..] == a[1..][..n - 1] && b[..n][1..] == b[1..][..n - 1];
        }
      }
      if StringLess(a, b) {
        var m: nat :| FirstDifference(a[1..], b[1..], m);
        assert FirstDifference(a, b, m + 1);
      }
      assert !FirstDifference(a, b, 0);
    }
  }

  lemma AtomLessOrder(a: Atom, b: Atom, c: Atom)
    ensures !AtomLess(a, a)
    ensures a != b ==> AtomLess(a, b) || AtomLess(b, a)
    ensures AtomLess(a, b) && AtomLess(b, c) ==> AtomLess(a, c)
  {
    StringLessOrder(if a.S? then a.s else "", if b.S? then b.s else "", if c.S? then c.s else "");
  }

  /** The key order is a strict total order. */
  lemma {:induction false} KeyLessOrder(a: Key, b: Key, c: Key)
    ensures !KeyLess(a, a)
    ensures a != b ==> KeyLess(a, b) || KeyLess(b, a)
    ensures KeyLess(a, b) && KeyLess(b, c) ==> KeyLess(a, c)
    decreases |a| + |b| + |c|
  {
    if a != [] {
      KeyLessOrder(a[1..], if b == [] then [] else b[1..], if c == [] then [] else c[1..]);
      AtomLessOrder(a[0], if b == [] then a[0] else b[0], if c == [] then a[0] else c[0]);
      if b != [] && a[0] == b[0] && a[1..] == b[1..] {
        assert a == [a[0]] + a[1..] && b == [b[0]] + b[1..];
      }
    }
  }

  lemma FirstDecides(a: Key, b: Key)
    requires a != [] && b != []
    ensures KeyLess(a, b) <==> AtomLess(a[0], b[0]) || (a[0] == b[0] && KeyLess(a[1..], b[1..]))
  {
  }

  lemma LastDecides(a: Atom, b: Atom)
    ensures KeyLess([a], [b]) <==> AtomLess(a, b)
  {
    assert [a][1..] == [] && [b][1..] == [] && !KeyLess([], []);
  }

  // ---- White space, as `str.strip` removes it ----

  predicate Blank(c: char) {
    '\t' <= c <= '\r' || '\U{001C}' <= c <= ' ' || c == '\U{0085}' || c == '\U{00A0}' || c == '\U{1680}' ||
    '\U{2000}' <= c <= '\U{200A}' ||
    c == '\U{2028}' || c == '\U{2029}' || c == '\U{202F}' || c == '\U{205F}' || c == '\U{3000}'
  }

  predicate BlankText(s: string) {
    forall i :: 0 <= i < |s| ==> Blank(s[i])
  }

  // ---- Sorted lists ----

  ghost predicate StrictlySorted<T>(key: T -> Key, s: seq<T>) {
    forall i, j :: 0 <= i < j < |s| ==> KeyLess(key(s[i]), key(s[j]))
  }

  ghost predicate Sorted<T>(key: T -> Key, s: seq<T>) {
    forall i, j :: 0 <= i < j < |s| ==> !KeyLess(key(s[j]), key(s[i]))
  }

  ghost predicate DistinctKeys<T>(key: T -> Key, s: seq<T>) {
    forall i, j :: 0 <= i < j < |s| ==> key(s[i]) != key(s[j])
  }

  // ---- Filtering, mapping and summing; every recursion peels the last element, as a loop appends it ----

  function Filter<T>(p: T -> bool, s: seq<T>): seq<T> {
    if s == [] then []
    else Filter(p, s[..|s| - 1]) + (if p(s[|s| - 1]) then [s[|s| - 1]] else [])
  }

  function Map<T, U>(f: T -> U, s: seq<T>): (r: seq<U>)
    ensures |r| == |s| && forall i :: 0 <= i < |s| ==> r[i] == f(s[i])
  {
    if s == [] then [] else Map(f, s[..|s| - 1]) + [f(s[|s| - 1])]
  }

  function FlatMap<T, U>(f: T -> seq<U>, s: seq<T>): seq<U> {
    if s == [] then [] else FlatMap(f, s[..|s| - 1]) + f(s[|s| - 1])
  }

  function Sum<T>(f: T -> int, s: seq<T>): int {
    if s == [] then 0 else Sum(f, s[..|s| - 1]) + f(s[|s| - 1])
  }

  function KeyIs<T, K(==)>(key: T -> K, k: K): T -> bool {
    x => key(x) == k
  }

  lemma {:induction false} FilterMember<T>(p: T -> bool, s: seq<T>, x: T)
    ensures x in Filter(p, s) <==> x in s && p(x)
  {
    if s != [] {
      FilterMember(p, s[..|s| - 1], x);
      assert s == s[..|s| - 1] + [s[|s| - 1]];
    }
  }

  lemma FilterMembers<T(!new)>(p: T -> bool, s: seq<T>)
    ensures forall x :: x in Filter(p, s) <==> x in s && p(x)
  {
    forall x {
      FilterMember(p, s, x);
    }
  }

  lemma {:induction false} FilterConcat<T>(p: T -> bool, a: seq<T>, b: seq<T>)
    ensures Filter(p, a + b) == Filter(p, a) + Filter(p, b)
  {
    if b == [] {
      assert a + b == a;
    } else {
      FilterConcat(p, a, b[..|b| - 1]);
      assert (a + b)[..|a + b| - 1] == a + b[..|b| - 1];
    }
  }

  lemma {:induction false} FilterAgree<T>(p: T -> bool, q: T -> bool, s: seq<T>)
    requires forall x :: x in s ==> p(x) == q(x)
    ensures Filter(p, s) == Filter(q, s)
  {
    if s != [] {
      FilterAgree(p, q, s[..|s| - 1]);
    }
  }

  lemma {:induction false} FilterTwice<T>(p: T -> bool, q: T -> bool, r: T -> bool, s: seq<T>)
    requires forall x :: x in s ==> r(x) == (p(x) && q(x))
    ensures Filter(p, Filter(q, s)) == Filter(r, s)
  {
    if s != [] {
      FilterTwice(p, q, r, s[..|s| - 1]);
      var last := if q(s[|s| - 1]) then [s[|s| - 1]] else [];
      FilterConcat(p, Filter(q, s[..|s| - 1]), last);
      if last != [] {
        assert last[..0] == [] && Filter(p, []) == [];
      }
    }
  }

  lemma {:induction false} FilterStrict<T(!new)>(key: T -> Key, p: T -> bool, s: seq<T>)
    requires StrictlySorted(key, s)
    ensures StrictlySorted(key, Filter(p, s))
  {
    if s != [] {
      var t := s[..|s| - 1];
      FilterStrict(key, p, t);
      var f := Filter(p, t);
      forall i | 0 <= i < |f|
        ensures KeyLess(key(f[i]), key(s[|s| - 1]))
      {
        FilterMember(p, t, f[i]);
        var k :| 0 <= k < |t| && t[k] == f[i];
        assert KeyLess(key(s[k]), key(s[|s| - 1]));
      }
    }
  }

  lemma {:induction false} SumConcat<T>(f: T -> int, a: seq<T>, b: seq<T>)
    ensures Sum(f, a + b) == Sum(f, a) + Sum(f, b)
  {
    if b == [] {
      assert a + b == a;
    } else {
      SumConcat(f, a, b[..|b| - 1]);
      assert (a + b)[..|a + b| - 1] == a + b[..|b| - 1];
    }
  }

  lemma {:induction false} FlatMapAgree<T, U>(f: T -> seq<U>, g: T -> seq<U>, s: seq<T>)
    requires forall x :: x in s ==> f(x) == g(x)
    ensures FlatMap(f, s) == FlatMap(g, s)
  {
    if s != [] {
      FlatMapAgree(f, g, s[..|s| - 1]);
    }
  }

  lemma {:induction false} FlatMapMember<T(!new), U>(f: T -> seq<U>, s: seq<T>, y: U)
    ensures y in FlatMap(f, s) <==> exists x :: x in s && y in f(x)
  {
    if s != [] {
      FlatMapMember(f, s[..|s| - 1], y);
      assert s == s[..|s| - 1] + [s[|s| - 1]];
    }
  }

  lemma InitMembers<T(!new)>(key: T -> Key, init: seq<T>, last: T)
    requires StrictlySorted(key, init + [last])
    ensures forall x :: x in init <==> x in init + [last] && x != last
    ensures StrictlySorted(key, init)
  {
    var s := init + [last];
    assert forall i :: 0 <= i < |init| ==> s[i] == init[i];
    if last in init {
      var i :| 0 <= i < |init| && init[i] == last;
      assert KeyLess(key(s[i]), key(s[|init|]));
      KeyLessOrder(key(last), key(last), key(last));
    }
  }

  lemma MapMember<T(!new), U>(f: T -> U, s: seq<T>, y: U)
    ensures y in Map(f, s) <==> exists x :: x in s && f(x) == y
  {
    var r := Map(f, s);
    if y in r {
      var i :| 0 <= i < |r| && r[i] == y;
      assert s[i] in s && f(s[i]) == y;
    }
    if x :| x in s && f(x) == y {
      var i :| 0 <= i < |s| && s[i] == x;
      assert r[i] == y;
    }
  }

  /** A strictly sorted list is determined by its elements. */
  lemma {:induction false} StrictlySortedUnique<T(!new)>(key: T -> Key, s: seq<T>, t: seq<T>)
    requires StrictlySorted(key, s) && StrictlySorted(key, t)
    requires forall x :: x in s <==> x in t
    ensures s == t
  {
    assert s != [] ==> s[0] in t;
    assert t != [] ==> t[0] in s;
    if s != [] && t != [] {
      LastIsGreatest(key, s, t);
      var s', t', last := s[..|s| - 1], t[..|t| - 1], s[|s| - 1];
      assert s == s' + [last] && t == t' + [last];
      InitMembers(key, s', last);
      InitMembers(key, t', last);
      assert forall x :: x in s' <==> x in t';
      StrictlySortedUnique(key, s', t');
    }
  }

  lemma LastIsGreatest<T(!new)>(key: T -> Key, s: seq<T>, t: seq<T>)
    requires StrictlySorted(key, s) && StrictlySorted(key, t) && s != [] && t != []
    requires forall x :: x in s <==> x in t
    ensures s[|s| - 1] == t[|t| - 1]
  {
    var a, b := s[|s| - 1], t[|t| - 1];
    assert a in t && b in s;
    var i :| 0 <= i < |t| && t[i] == a;
    var j :| 0 <= j < |s| && s[j] == b;
    if a != b {
      assert KeyLess(key(a), key(b)) && KeyLess(key(b), key(a));
      KeyLessOrder(key(a), key(b), key(a));
    }
  }

  /** The frame rule of every per-entity computation: two sorted lists that agree on the records
      satisfying `p` yield the same filtered list. */
  lemma FilterFrame<T(!new)>(key: T -> Key, p: T -> bool, s: seq<T>, t: seq<T>)
    requires StrictlySorted(key, s) && StrictlySorted(key, t)
    requires forall x :: p(x) ==> (x in s <==> x in t)
    ensures Filter(p, s) == Filter(p, t)
  {
    FilterStrict(key, p, s);
    FilterStrict(key, p, t);
    FilterMembers(p, s);
    FilterMembers(p, t);
    StrictlySortedUnique(key, Filter(p, s), Filter(p, t));
  }

  lemma {:induction false} FilterMap<T, U>(p: U -> bool, q: T -> bool, f: T -> U, s: seq<T>)
    requires forall x :: x in s ==> p(f(x)) == q(x)
    ensures Filter(p, Map(f, s)) == Map(f, Filter(q, s))
  {
    if s != [] {
      var init, last := s[..|s| - 1], s[|s| - 1];
      FilterMap(p, q, f, init);
      FilterAppend(p, Map(f, init), f(last));
      if q(last) {
        var kept := Filter(q, init) + [last];
        assert kept[..|kept| - 1] == Filter(q, init);
      }
    }
  }

  /** Filtering what a list expands to is expanding the filtered list, when each element's
      expansion is kept or dropped as a whole. */
  lemma {:induction false} FilterFlatMap<T, U>(p: U -> bool, q: T -> bool, f: T -> seq<U>, s: seq<T>)
    requires forall x, y :: x in s && y in f(x) ==> p(y) == q(x)
    ensures Filter(p, FlatMap(f, s)) == FlatMap(f, Filter(q, s))
  {
    if s != [] {
      var init, last := s[..|s| - 1], s[|s| - 1];
      assert s == init + [last];
      FilterFlatMap(p, q, f, init);
      FilterConcat(p, FlatMap(f, init), f(last));
      FilterUniform(p, f(last), q(last));
      FilterAppend(q, init, last);
      FlatMapAppend(f, init, last);
      if q(last) {
        FlatMapAppend(f, Filter(q, init), last);
      }
    }
  }

  lemma FlatMapAppend<T, U>(f: T -> seq<U>, s: seq<T>, x: T)
    ensures FlatMap(f, s + [x]) == FlatMap(f, s) + f(x)
  {
    assert (s + [x])[..|s + [x]| - 1] == s;
  }

  lemma MapAppend<T, U>(f: T -> U, s: seq<T>, x: T)
    ensures Map(f, s + [x]) == Map(f, s) + [f(x)]
  {
    assert (s + [x])[..|s + [x]| - 1] == s;
  }

  lemma {:induction false} MapConcat<T, U>(f: T -> U, a: seq<T>, b: seq<T>)
    ensures Map(f, a + b) == Map(f, a) + Map(f, b)
  {
    assert forall i :: 0 <= i < |a + b| ==> Map(f, a + b)[i] == (Map(f, a) + Map(f, b))[i];
  }

  /** Mapping with a function that keeps the keys commutes with dictionaries and with sorting. */
  lemma {:induction false} AssignMap<T, K>(key: T -> K, g: T -> T, s: seq<T>, x: T)
    requires key(g(x)) == key(x) && forall y :: y in s ==> key(g(y)) == key(y)
    ensures Map(g, Assign(key, s, x)) == Assign(key, Map(g, s), g(x))
  {
    if s != [] {
      var init, last := s[..|s| - 1], s[|s| - 1];
      assert s == init + [last];
      AssignMap(key, g, init, x);
      MapAppend(g, init, last);
      MapAppend(g, init, x);
      MapAppend(g, Assign(key, init, x), last);
    }
  }

  lemma {:induction false} KeepLastMap<T, K>(key: T -> K, g: T -> T, s: seq<T>)
    requires forall y :: y in s ==> key(g(y)) == key(y)
    ensures Map(g, KeepLast(key, s)) == KeepLast(key, Map(g, s))
    ensures forall y :: y in KeepLast(key, s) ==> y in s
  {
    if s != [] {
      var init, last := s[..|s| - 1], s[|s| - 1];
      assert s == init + [last];
      KeepLastMap(key, g, init);
      AssignMap(key, g, KeepLast(key, init), last);
      AssignMembers(key, KeepLast(key, init), last);
      MapAppend(g, init, last);
      assert Map(g, s)[..|s| - 1] == Map(g, init);
    }
  }

  lemma {:induction false} AssignMembers<T, K>(key: T -> K, s: seq<T>, x: T)
    ensures forall y :: y in Assign(key, s, x) ==> y == x || y in s
  {
    if s != [] {
      AssignMembers(key, s[..|s| - 1], x);
    }
  }

  lemma {:induction false} InsertMap<T>(key: T -> Key, g: T -> T, s: seq<T>, x: T)
    requires key(g(x)) == key(x) && forall y :: y in s ==> key(g(y)) == key(y)
    ensures Map(g, Insert(key, s, x)) == Insert(key, Map(g, s), g(x))
  {
    if s == [] || !KeyLess(key(x), key(s[|s| - 1])) {
      MapAppend(g, s, x);
    } else {
      var init, last := s[..|s| - 1], s[|s| - 1];
      assert s == init + [last];
      InsertMap(key, g, init, x);
      MapAppend(g, init, last);
      MapAppend(g, Insert(key, init, x), last);
    }
  }

  lemma {:induction false} SortMap<T(!new)>(key: T -> Key, g: T -> T, s: seq<T>)
    requires forall y :: y in s ==> key(g(y)) == key(y)
    ensures Map(g, Sort(key, s)) == Sort(key, Map(g, s))
  {
    if s != [] {
      var init, last := s[..|s| - 1], s[|s| - 1];
      assert s == init + [last];
      SortMap(key, g, init);
      SortKeeps(key, g, init);
      InsertMap(key, g, Sort(key, init), last);
      MapAppend(g, init, last);
      SortAppend(key, Map(g, init), g(last));
    }
  }

  lemma SortKeeps<T(!new)>(key: T -> Key, g: T -> T, s: seq<T>)
    requires forall y :: y in s ==> key(g(y)) == key(y)
    ensures forall y :: y in Sort(key, s) ==> key(g(y)) == key(y)
  {
    SortMembers(key, s);
    forall y | y in Sort(key, s)
      ensures key(g(y)) == key(y)
    {
      assert y in s;
    }
  }

  lemma SortAppend<T>(key: T -> Key, s: seq<T>, x: T)
    ensures Sort(key, s + [x]) == Insert(key, Sort(key, s), x)
  {
    var t := s + [x];
    assert t[..|t| - 1] == s && t[|t| - 1] == x;
  }

  lemma {:induction false} MapFlatMap<T, U>(g: U -> U, f: T -> seq<U>, h: T -> seq<U>, s: seq<T>)
    requires forall x :: x in s ==> Map(g, f(x)) == h(x)
    ensures Map(g, FlatMap(f, s)) == FlatMap(h, s)
  {
    if s != [] {
      MapFlatMap(g, f, h, s[..|s| - 1]);
      MapConcat(g, FlatMap(f, s[..|s| - 1]), f(s[|s| - 1]));
    }
  }

  lemma MapIdentity<T>(g: T -> T, s: seq<T>)
    requires forall x :: x in s ==> g(x) == x
    ensures Map(g, s) == s
  {
    assert forall i :: 0 <= i < |s| ==> Map(g, s)[i] == s[i];
  }

  lemma {:induction false} FilterUniform<T>(p: T -> bool, s: seq<T>, keep: bool)
    requires forall x :: x in s ==> p(x) == keep
    ensures Filter(p, s) == if keep then s else []
  {
    if s != [] {
      FilterUniform(p, s[..|s| - 1], keep);
      assert s == s[..|s| - 1] + [s[|s| - 1]];
    }
  }

  lemma {:induction false} MapAgree<T, U>(f: T -> U, g: T -> U, s: seq<T>)
    requires forall x :: x in s ==> f(x) == g(x)
    ensures Map(f, s) == Map(g, s)
  {
    assert forall i :: 0 <= i < |s| ==> Map(f, s)[i] == Map(g, s)[i];
  }

  function InKeys<T, K(==)>(key: T -> K, ks: set<K>): T -> bool {
    x => key(x) in ks
  }

  lemma NoKeys<T, K>(key: T -> K, s: seq<T>)
    ensures Filter(InKeys(key, {}), s) == []
  {
    FilterUniform(InKeys(key, {}), s, false);
  }

  /** What a key contributes to a sum, one key at a time. */
  lemma {:induction false} SumOneMoreKey<T, K>(f: T -> int, key: T -> K, ks: set<K>, k: K, s: seq<T>)
    requires k !in ks
    ensures Sum(f, Filter(InKeys(key, ks + {k}), s)) == Sum(f, Filter(InKeys(key, ks), s))
      + Sum(f, Filter(KeyIs(key, k), s))
  {
    if s != [] {
      var init, last := s[..|s| - 1], s[|s| - 1];
      assert s == init + [last];
      SumOneMoreKey(f, key, ks, k, init);
      FilterAppend(InKeys(key, ks + {k}), init, last);
      FilterAppend(InKeys(key, ks), init, last);
      FilterAppend(KeyIs(key, k), init, last);
      SumConcat(f, Filter(InKeys(key, ks + {k}), init), [last]);
      SumConcat(f, Filter(InKeys(key, ks), init), [last]);
      SumConcat(f, Filter(KeyIs(key, k), init), [last]);
    }
  }

  /** A list is its kept part and its dropped part. */
  lemma {:induction false} SumPartition<T>(f: T -> int, p: T -> bool, s: seq<T>)
    ensures Sum(f, s) == Sum(f, Filter(p, s)) + Sum(f, Filter(Not(p), s))
  {
    if s != [] {
      var init, last := s[..|s| - 1], s[|s| - 1];
      assert s == init + [last];
      SumPartition(f, p, init);
      FilterAppend(p, init, last);
      FilterAppend(Not(p), init, last);
      SumConcat(f, Filter(p, init), [last]);
      SumConcat(f, Filter(Not(p), init), [last]);
    }
  }

  // ---- Dictionaries as association lists ----

  /** `d[key(x)] = x`: an existing entry keeps its position and takes the new value. */
  function Assign<T, K(==)>(key: T -> K, s: seq<T>, x: T): seq<T> {
    if s == [] then [x]
    else if key(s[|s| - 1]) == key(x) then s[..|s| - 1] + [x]
    else Assign(key, s[..|s| - 1], x) + [s[|s| - 1]]
  }

  /** The values of `{key(x): x for x in s}`. */
  function KeepLast<T, K(==)>(key: T -> K, s: seq<T>): seq<T> {
    if s == [] then [] else Assign(key, KeepLast(key, s[..|s| - 1]), s[|s| - 1])
  }

  lemma {:induction false} FilterAssign<T, K>(key: T -> K, p: T -> bool, s: seq<T>, x: T)
    requires forall y, z :: key(y) == key(z) ==> p(y) == p(z)
    ensures Filter(p, Assign(key, s, x)) == if p(x) then Assign(key, Filter(p, s), x) else Filter(p, s)
  {
    if s == [] {
      FilterAppend(p, [], x);
      assert [] + [x] == [x];
    } else {
      var init, last := s[..|s| - 1], s[|s| - 1];
      assert s == init + [last];
      FilterAppend(p, init, last);
      if key(last) == key(x) {
        FilterAppend(p, init, x);
      } else {
        FilterAssign(key, p, init, x);
        FilterAppend(p, Assign(key, init, x), last);
        if p(last) {
          AssignAppend(key, Filter(p, init), last, x);
        }
      }
    }
  }

  lemma AssignAppend<T, K>(key: T -> K, s: seq<T>, last: T, x: T)
    requires key(last) != key(x)
    ensures Assign(key, s + [last], x) == Assign(key, s, x) + [last]
  {
    var t := s + [last];
    assert t[..|t| - 1] == s && t[|t| - 1] == last;
  }

  /** Dropping whole dictionary keys before or after building the dictionary makes no difference. */
  lemma {:induction false} FilterKeepLast<T, K>(key: T -> K, p: T -> bool, s: seq<T>)
    requires forall y, z :: key(y) == key(z) ==> p(y) == p(z)
    ensures Filter(p, KeepLast(key, s)) == KeepLast(key, Filter(p, s))
  {
    if s != [] {
      var init, last := s[..|s| - 1], s[|s| - 1];
      assert s == init + [last];
      FilterKeepLast(key, p, init);
      FilterAssign(key, p, KeepLast(key, init), last);
      FilterAppend(p, init, last);
      if p(last) {
        var kept := Filter(p, init) + [last];
        assert kept[..|kept| - 1] == Filter(p, init);
      }
    }
  }

  ghost predicate DistinctBy<T, K>(key: T -> K, s: seq<T>) {
    forall i, j :: 0 <= i < j < |s| ==> key(s[i]) != key(s[j])
  }

  lemma DistinctJoin<T, K>(key: T -> K, a: seq<T>, b: seq<T>)
    requires DistinctBy(key, a) && DistinctBy(key, b) && forall x, y :: x in a && y in b ==> key(x) != key(y)
    ensures DistinctBy(key, a + b)
  {
    var s := a + b;
    forall i, j | 0 <= i < j < |s|
      ensures key(s[i]) != key(s[j])
    {
      if i < |a| <= j {
        assert a[i] in a && b[j - |a|] in b;
      }
    }
  }

  lemma {:induction false} AssignEntries<T(!new), K>(key: T -> K, s: seq<T>, x: T)
    requires DistinctBy(key, s)
    ensures DistinctBy(key, Assign(key, s, x))
    ensures forall y :: y in Assign(key, s, x) <==> y == x || (y in s && key(y) != key(x))
  {
    if s != [] {
      var init, last := s[..|s| - 1], s[|s| - 1];
      assert s == init + [last];
      forall y | y in init
        ensures key(y) != key(last)
      {
        var i :| 0 <= i < |init| && init[i] == y;
        assert key(s[i]) != key(s[|s| - 1]);
      }
      AssignEntries(key, init, x);
      var r := Assign(key, init, x);
      if key(last) != key(x) {
        forall y | y in r
          ensures key(y) != key(last)
        {
        }
        DistinctAppend(key, r, last);
      } else {
        DistinctAppend(key, init, x);
      }
    }
  }

  lemma DistinctAppend<T, K>(key: T -> K, s: seq<T>, x: T)
    requires DistinctBy(key, s) && forall y :: y in s ==> key(y) != key(x)
    ensures DistinctBy(key, s + [x])
  {
    assert forall i :: 0 <= i < |s| ==> s[i] in s;
  }

  /** `s[i]` is the last element of `s` under its key. */
  ghost predicate LastOfKey<T, K>(key: T -> K, s: seq<T>, i: int) {
    0 <= i < |s| && forall j :: i < j < |s| ==> key(s[j]) != key(s[i])
  }

  /** One entry per key: the last one written. */
  lemma {:induction false} KeepLastEntries<T(!new), K>(key: T -> K, s: seq<T>)
    ensures DistinctBy(key, KeepLast(key, s))
    ensures forall y :: y in KeepLast(key, s) <==> exists i :: LastOfKey(key, s, i) && s[i] == y
  {
    if s != [] {
      var init, last := s[..|s| - 1], s[|s| - 1];
      KeepLastEntries(key, init);
      AssignEntries(key, KeepLast(key, init), last);
      forall y
        ensures y in KeepLast(key, s) <==> exists i :: LastOfKey(key, s, i) && s[i] == y
      {
        LastOfKeyAppend(key, init, last, y);
        assert s == init + [last];
      }
    }
  }

  lemma LastOfKeyAppend<T, K>(key: T -> K, init: seq<T>, last: T, y: T)
    ensures (exists i :: LastOfKey(key, init + [last], i) && (init + [last])[i] == y) <==>
      y == last || (key(y) != key(last) && exists i :: LastOfKey(key, init, i) && init[i] == y)
  {
    var s := init + [last];
    if i :| LastOfKey(key, s, i) && s[i] == y {
      if i < |init| {
        assert key(s[|init|]) != key(y);
        assert forall j :: i < j < |init| ==> init[j] == s[j];
        assert LastOfKey(key, init, i) && init[i] == y;
      }
    }
    if key(y) != key(last) {
      if i :| LastOfKey(key, init, i) && init[i] == y {
        assert forall j :: i < j < |init| ==> s[j] == init[j];
        assert LastOfKey(key, s, i) && s[i] == y;
      }
    }
    assert LastOfKey(key, s, |init|) && s[|init|] == last;
  }

  // ---- Stable sort ----

  /** Insert after every element whose key is not greater. */
  function Insert<T>(key: T -> Key, s: seq<T>, x: T): seq<T> {
    if s == [] || !KeyLess(key(x), key(s[|s| - 1])) then s + [x]
    else Insert(key, s[..|s| - 1], x) + [s[|s| - 1]]
  }

  function Sort<T>(key: T -> Key, s: seq<T>): seq<T> {
    if s == [] then [] else Insert(key, Sort(key, s[..|s| - 1]), s[|s| - 1])
  }

  lemma {:induction false} InsertElements<T>(key: T -> Key, s: seq<T>, x: T)
    ensures multiset(Insert(key, s, x)) == multiset(s) + multiset{x}
  {
    if s != [] && KeyLess(key(x), key(s[|s| - 1])) {
      InsertElements(key, s[..|s| - 1], x);
      assert s == s[..|s| - 1] + [s[|s| - 1]];
    }
  }

  lemma {:induction false} SortElements<T>(key: T -> Key, s: seq<T>)
    ensures multiset(Sort(key, s)) == multiset(s)
  {
    if s != [] {
      var init, last := s[..|s| - 1], s[|s| - 1];
      var sorted := Sort(key, init);
      SortElements(key, init);
      InsertElements(key, sorted, last);
      assert Sort(key, s) == Insert(key, sorted, last);
      assert multiset(init + [last]) == multiset(init) + multiset{last};
      assert s == init + [last];
    }
  }

  lemma SortMembers<T>(key: T -> Key, s: seq<T>)
    ensures forall x :: x in Sort(key, s) <==> x in s
    ensures |Sort(key, s)| == |s|
  {
    SortElements(key, s);
    var r := Sort(key, s);
    forall x
      ensures x in r <==> x in s
    {
      assert x in multiset(r) <==> x in multiset(s);
    }
    assert |multiset(r)| == |r| && |multiset(s)| == |s|;
  }

  lemma {:induction false} InsertSorted<T>(key: T -> Key, s: seq<T>, x: T)
    requires Sorted(key, s)
    ensures Sorted(key, Insert(key, s, x))
  {
    if s == [] {
    } else if !KeyLess(key(x), key(s[|s| - 1])) {
      var r := s + [x];
      forall i, j | 0 <= i < j < |r|
        ensures !KeyLess(key(r[j]), key(r[i]))
      {
        if j == |s| {
          assert i < |s| - 1 ==> !KeyLess(key(s[|s| - 1]), key(s[i]));
          KeyLessOrder(key(s[i]), key(s[i]), key(s[i]));
          NotLessTransitive(key(s[i]), key(s[|s| - 1]), key(x));
        }
      }
    } else {
      var t, last := s[..|s| - 1], s[|s| - 1];
      InsertSorted(key, t, x);
      var r := Insert(key, t, x);
      InsertElements(key, t, x);
      forall i | 0 <= i < |r|
        ensures !KeyLess(key(last), key(r[i]))
      {
        assert r[i] in multiset(r);
        if r[i] == x {
          KeyLessOrder(key(x), key(last), key(x));
        } else {
          assert r[i] in multiset(t);
          var k :| 0 <= k < |t| && t[k] == r[i];
        }
      }
    }
  }

  lemma NotLessTransitive(a: Key, b: Key, c: Key)
    requires !KeyLess(b, a) && !KeyLess(c, b)
    ensures !KeyLess(c, a)
  {
    KeyLessOrder(a, b, c);
    KeyLessOrder(c, a, b);
    KeyLessOrder(b, c, a);
  }

  lemma {:induction false} SortSorted<T>(key: T -> Key, s: seq<T>)
    ensures Sorted(key, Sort(key, s))
  {
    if s != [] {
      SortSorted(key, s[..|s| - 1]);
      InsertSorted(key, Sort(key, s[..|s| - 1]), s[|s| - 1]);
    }
  }

  /** Sorting a list whose keys are all different yields a strictly sorted list. */
  lemma {:induction false} SortStrict<T(!new)>(key: T -> Key, s: seq<T>)
    requires DistinctKeys(key, s)
    ensures StrictlySorted(key, Sort(key, s))
  {
    if s != [] {
      var t := s[..|s| - 1];
      SortStrict(key, t);
      SortMembers(key, t);
      forall y | y in Sort(key, t)
        ensures key(y) != key(s[|s| - 1])
      {
        assert y in t;
        var i :| 0 <= i < |t| && t[i] == y;
        assert key(s[i]) != key(s[|s| - 1]);
      }
      InsertStrict(key, Sort(key, t), s[|s| - 1]);
    }
  }

  lemma {:induction false} InsertStrict<T>(key: T -> Key, s: seq<T>, x: T)
    requires StrictlySorted(key, s) && forall y :: y in s ==> key(y) != key(x)
    ensures StrictlySorted(key, Insert(key, s, x))
  {
    if s == [] {
    } else if !KeyLess(key(x), key(s[|s| - 1])) {
      var r := s + [x];
      KeyLessOrder(key(s[|s| - 1]), key(x), key(x));
      forall i, j | 0 <= i < j < |r|
        ensures KeyLess(key(r[i]), key(r[j]))
      {
        if j == |s| {
          KeyLessOrder(key(s[i]), key(s[|s| - 1]), key(x));
        }
      }
    } else {
      var t, last := s[..|s| - 1], s[|s| - 1];
      InsertStrict(key, t, x);
      var r := Insert(key, t, x);
      InsertElements(key, t, x);
      forall i | 0 <= i < |r|
        ensures KeyLess(key(r[i]), key(last))
      {
        assert r[i] in multiset(r);
        if r[i] != x {
          assert r[i] in multiset(t);
          var k :| 0 <= k < |t| && t[k] == r[i];
        }
      }
    }
  }

  /** A list without repeats, as Python's `set(...)` test sees it. */
  ghost predicate NoRepeats<T>(s: seq<T>) {
    forall i, j :: 0 <= i < j < |s| ==> s[i] != s[j]
  }

  lemma StrictNoRepeats<T>(key: T -> Key, s: seq<T>)
    requires StrictlySorted(key, s)
    ensures NoRepeats(s) && DistinctKeys(key, s)
  {
    forall i, j | 0 <= i < j < |s|
      ensures key(s[i]) != key(s[j])
    {
      KeyLessOrder(key(s[i]), key(s[j]), key(s[i]));
    }
  }

  /** Sorting first or filtering first makes no difference: the sort is stable. */
  lemma {:induction false} FilterSort<T>(key: T -> Key, p: T -> bool, s: seq<T>)
    ensures Filter(p, Sort(key, s)) == Sort(key, Filter(p, s))
  {
    if s != [] {
      var t, x := s[..|s| - 1], s[|s| - 1];
      FilterSort(key, p, t);
      SortSorted(key, t);
      FilterInsert(key, p, Sort(key, t), x);
      if p(x) {
        var f := Filter(p, t) + [x];
        assert f[..|f| - 1] == Filter(p, t) && f[|f| - 1] == x;
      } else {
        assert Filter(p, s) == Filter(p, t);
      }
    }
  }

  lemma {:induction false} FilterInsert<T>(key: T -> Key, p: T -> bool, s: seq<T>, x: T)
    requires Sorted(key, s)
    ensures Filter(p, Insert(key, s, x)) == if p(x) then Insert(key, Filter(p, s), x) else Filter(p, s)
  {
    if s == [] || !KeyLess(key(x), key(s[|s| - 1])) {
      FilterAppend(p, s, x);
      if p(x) && s != [] {
        FilterLastNotGreater(key, p, s, x);
      }
    } else {
      var t, last := s[..|s| - 1], s[|s| - 1];
      assert s == t + [last];
      FilterInsert(key, p, t, x);
      FilterAppend(p, Insert(key, t, x), last);
      FilterAppend(p, t, last);
      InsertBefore(key, t, last, x);
      InsertBefore(key, Filter(p, t), last, x);
    }
  }

  lemma InsertBefore<T>(key: T -> Key, t: seq<T>, last: T, x: T)
    requires KeyLess(key(x), key(last))
    ensures Insert(key, t + [last], x) == Insert(key, t, x) + [last]
  {
    var s := t + [last];
    assert s[..|s| - 1] == t && s[|s| - 1] == last;
  }

  lemma FilterAppend<T>(p: T -> bool, s: seq<T>, x: T)
    ensures Filter(p, s + [x]) == if p(x) then Filter(p, s) + [x] else Filter(p, s)
  {
    assert (s + [x])[..|s + [x]| - 1] == s;
  }

  lemma FilterLastNotGreater<T>(key: T -> Key, p: T -> bool, s: seq<T>, x: T)
    requires Sorted(key, s) && s != [] && !KeyLess(key(x), key(s[|s| - 1]))
    ensures var f := Filter(p, s); f == [] || !KeyLess(key(x), key(f[|f| - 1]))
  {
    var f := Filter(p, s);
    if f != [] {
      FilterMember(p, s, f[|f| - 1]);
      var i :| 0 <= i < |s| && s[i] == f[|f| - 1];
      assert i < |s| - 1 ==> !KeyLess(key(s[|s| - 1]), key(s[i]));
      KeyLessOrder(key(s[i]), key(s[i]), key(s[i]));
      NotLessTransitive(key(s[i]), key(s[|s| - 1]), key(x));
    }
  }

  /** Two sorted lists with the same sublist under every key are the same list. */
  lemma {:induction false} SortedByRuns<T>(key: T -> Key, s: seq<T>, t: seq<T>)
    requires Sorted(key, s) && Sorted(key, t)
    requires forall k :: Filter(KeyIs(key, k), s) == Filter(KeyIs(key, k), t)
    ensures s == t
  {
    if s != [] {
      NonemptyRun(key, s, t);
    }
    if t != [] {
      NonemptyRun(key, t, s);
    }
    if s != [] {
      LastRun(key, s, t);
      var s', t', last := s[..|s| - 1], t[..|t| - 1], s[|s| - 1];
      assert s == s' + [last] && t == t' + [last];
      forall k
        ensures Filter(KeyIs(key, k), s') == Filter(KeyIs(key, k), t')
      {
        FilterAppend(KeyIs(key, k), s', last);
        FilterAppend(KeyIs(key, k), t', last);
        var a, b := Filter(KeyIs(key, k), s'), Filter(KeyIs(key, k), t');
        assert key(last) == k ==> a + [last] == b + [last];
        assert key(last) == k ==> (a + [last])[..|a|] == (b + [last])[..|b|];
      }
      SortedByRuns(key, s', t');
    }
  }

  lemma NonemptyRun<T>(key: T -> Key, s: seq<T>, t: seq<T>)
    requires s != [] && Filter(KeyIs(key, key(s[0])), s) == Filter(KeyIs(key, key(s[0])), t)
    ensures t != []
  {
    FilterMember(KeyIs(key, key(s[0])), s, s[0]);
    FilterMember(KeyIs(key, key(s[0])), t, s[0]);
  }

  lemma LastRun<T>(key: T -> Key, s: seq<T>, t: seq<T>)
    requires Sorted(key, s) && Sorted(key, t) && s != [] && t != []
    requires forall k :: Filter(KeyIs(key, k), s) == Filter(KeyIs(key, k), t)
    ensures s[|s| - 1] == t[|t| - 1]
  {
    var a, b := s[|s| - 1], t[|t| - 1];
    assert key(a) == key(b) by {
      NotBeyondLast(key, s, b, t);
      NotBeyondLast(key, t, a, s);
      KeyLessOrder(key(a), key(b), key(a));
    }
    FilterEndsWithLast(KeyIs(key, key(a)), s);
    FilterEndsWithLast(KeyIs(key, key(a)), t);
  }

  lemma FilterEndsWithLast<T>(p: T -> bool, s: seq<T>)
    requires s != [] && p(s[|s| - 1])
    ensures Filter(p, s) != [] && Filter(p, s)[|Filter(p, s)| - 1] == s[|s| - 1]
  {
  }

  lemma NotBeyondLast<T>(key: T -> Key, s: seq<T>, y: T, t: seq<T>)
    requires Sorted(key, s) && s != [] && y in t
    requires Filter(KeyIs(key, key(y)), s) == Filter(KeyIs(key, key(y)), t)
    ensures !KeyLess(key(s[|s| - 1]), key(y))
  {
    var p := KeyIs(key, key(y));
    FilterMember(p, t, y);
    FilterMember(p, s, y);
    var i :| 0 <= i < |s| && s[i] == y;
    assert i < |s| - 1 ==> !KeyLess(key(s[|s| - 1]), key(s[i]));
    KeyLessOrder(key(y), key(y), key(y));
  }

  lemma {:induction false} FilterCount<T>(p: T -> bool, s: seq<T>, x: T)
    ensures multiset(Filter(p, s))[x] == if p(x) then multiset(s)[x] else 0
  {
    if s != [] {
      var init, last := s[..|s| - 1], s[|s| - 1];
      assert s == init + [last];
      FilterCount(p, init, x);
      FilterAppend(p, init, last);
    }
  }

  lemma FilterPermuted<T(!new)>(p: T -> bool, s: seq<T>, t: seq<T>)
    requires multiset(s) == multiset(t)
    ensures multiset(Filter(p, s)) == multiset(Filter(p, t))
  {
    forall x
      ensures multiset(Filter(p, s))[x] == multiset(Filter(p, t))[x]
    {
      FilterCount(p, s, x);
      FilterCount(p, t, x);
    }
  }

  lemma UniformPermuted<T(!new)>(s: seq<T>, t: seq<T>)
    requires multiset(s) == multiset(t) && forall x, y :: x in s && y in s ==> x == y
    ensures s == t
  {
    assert |multiset(s)| == |s| && |multiset(t)| == |t|;
    forall i | 0 <= i < |s|
      ensures s[i] == t[i]
    {
      assert t[i] in multiset(t) && t[i] in multiset(s) && t[i] in s && s[i] in s;
    }
  }

  /** With an injective key the sorted list depends only on how often each element occurs. */
  lemma SortPermuted<T(!new)>(key: T -> Key, s: seq<T>, t: seq<T>)
    requires multiset(s) == multiset(t) && forall x, y :: key(x) == key(y) ==> x == y
    ensures Sort(key, s) == Sort(key, t)
  {
    SortSorted(key, s);
    SortSorted(key, t);
    forall k
      ensures Filter(KeyIs(key, k), Sort(key, s)) == Filter(KeyIs(key, k), Sort(key, t))
    {
      SameRun(key, s, t, k);
    }
    SortedByRuns(key, Sort(key, s), Sort(key, t));
  }

  lemma SameRun<T(!new)>(key: T -> Key, s: seq<T>, t: seq<T>, k: Key)
    requires multiset(s) == multiset(t) && forall x, y :: key(x) == key(y) ==> x == y
    ensures Filter(KeyIs(key, k), Sort(key, s)) == Filter(KeyIs(key, k), Sort(key, t))
  {
    var run := KeyIs(key, k);
    FilterSort(key, run, s);
    FilterSort(key, run, t);
    FilterPermuted(run, s, t);
    FilterMembers(run, s);
    UniformPermuted(Filter(run, s), Filter(run, t));
  }

  function Without<T>(s: seq<T>, i: nat): (r: seq<T>)
    requires i < |s|
    ensures multiset(r) == multiset(s) - multiset{s[i]}
  {
    assert s == s[..i] + [s[i]] + s[i + 1..];
    s[..i] + s[i + 1..]
  }

  lemma MapWithout<T, U>(f: T -> U, s: seq<T>, i: nat)
    requires i < |s|
    ensures Map(f, Without(s, i)) == Without(Map(f, s), i)
  {
    MapConcat(f, s[..i], s[i + 1..]);
    MapPrefix(f, s, i);
  }

  lemma MapPrefix<T, U>(f: T -> U, s: seq<T>, i: nat)
    requires i < |s|
    ensures Map(f, s[..i]) == Map(f, s)[..i] && Map(f, s[i + 1..]) == Map(f, s)[i + 1..]
  {
    var a, b := Map(f, s[..i]), Map(f, s)[..i];
    assert forall k :: 0 <= k < i ==> a[k] == b[k];
    var x, y := Map(f, s[i + 1..]), Map(f, s)[i + 1..];
    assert forall k :: 0 <= k < |s| - i - 1 ==> x[k] == y[k];
  }

  lemma WithoutBoth<T(!new)>(s: seq<T>, x: T, t: seq<T>, i: nat)
    requires i < |t| && t[i] == x
    ensures multiset(s + [x]) == multiset(t) <==> multiset(s) == multiset(Without(t, i))
  {
    assert x in multiset(t);
    assert multiset(t) == multiset(Without(t, i)) + multiset{x};
  }

  lemma PairOff<T, U(!new)>(f: T -> U, init: seq<T>, last: T, t: seq<T>, i: nat)
    requires i < |t| && f(t[i]) == f(last)
    ensures multiset(Map(f, init)) == multiset(Map(f, Without(t, i))) <==>
      multiset(Map(f, init + [last])) == multiset(Map(f, t))
  {
    MapWithout(f, t, i);
    MapAppend(f, init, last);
    WithoutBoth(Map(f, init), f(last), Map(f, t), i);
  }

  lemma Partner<T, U(!new)>(f: T -> U, init: seq<T>, last: T, t: seq<T>) returns (i: nat)
    requires multiset(Map(f, init + [last])) == multiset(Map(f, t))
    ensures i < |t| && f(t[i]) == f(last)
  {
    MapAppend(f, init, last);
    assert f(last) in multiset(Map(f, t));
    i :| 0 <= i < |t| && Map(f, t)[i] == f(last);
  }

  lemma {:induction false} MapPermuted<T(!new), U(!new)>(f: T -> U, s: seq<T>, t: seq<T>)
    requires multiset(s) == multiset(t)
    ensures multiset(Map(f, s)) == multiset(Map(f, t))
  {
    if s == [] {
      assert |multiset(t)| == 0 && t == [];
    } else {
      var init, last := s[..|s| - 1], s[|s| - 1];
      assert s == init + [last] && last in multiset(t);
      var i :| 0 <= i < |t| && t[i] == last;
      WithoutBoth(init, last, t, i);
      MapPermuted(f, init, Without(t, i));
      PairOff(f, init, last, t, i);
    }
  }

  lemma SortExact<T(!new)>(key: T -> Key, s: seq<T>, t: seq<T>)
    requires forall x, y :: key(x) == key(y) ==> x == y
    ensures Sort(key, s) == Sort(key, t) <==> multiset(s) == multiset(t)
  {
    if multiset(s) == multiset(t) {
      SortPermuted(key, s, t);
    } else {
      SortElements(key, s);
      SortElements(key, t);
    }
  }

  // ---- Sums over what a list was sorted, filtered or picked from ----

  lemma {:induction false} SumInsert<T>(f: T -> int, key: T -> Key, s: seq<T>, x: T)
    ensures Sum(f, Insert(key, s, x)) == Sum(f, s) + f(x)
  {
    if s == [] || !KeyLess(key(x), key(s[|s| - 1])) {
      assert (s + [x])[..|s + [x]| - 1] == s;
    } else {
      var init, last := s[..|s| - 1], s[|s| - 1];
      var r := Insert(key, init, x);
      SumInsert(f, key, init, x);
      assert (r + [last])[..|r + [last]| - 1] == r;
    }
  }

  lemma {:induction false} SumSort<T>(f: T -> int, key: T -> Key, s: seq<T>)
    ensures Sum(f, Sort(key, s)) == Sum(f, s)
  {
    if s != [] {
      SumSort(f, key, s[..|s| - 1]);
      SumInsert(f, key, Sort(key, s[..|s| - 1]), s[|s| - 1]);
    }
  }

  lemma {:induction false} SumFilter<T>(f: T -> int, p: T -> bool, g: T -> int, s: seq<T>)
    requires forall x :: x in s ==> g(x) == if p(x) then f(x) else 0
    ensures Sum(f, Filter(p, s)) == Sum(g, s)
  {
    if s != [] {
      var init, last := s[..|s| - 1], s[|s| - 1];
      SumFilter(f, p, g, init);
      SumConcat(f, Filter(p, init), if p(last) then [last] else []);
      assert [last][..0] == [];
    }
  }

  lemma {:induction false} SumFlatMap<T, U>(f: U -> int, pick: T -> seq<U>, g: T -> int, s: seq<T>)
    requires forall x :: x in s ==> g(x) == Sum(f, pick(x))
    ensures Sum(f, FlatMap(pick, s)) == Sum(g, s)
  {
    if s != [] {
      var init, last := s[..|s| - 1], s[|s| - 1];
      SumFlatMap(f, pick, g, init);
      SumConcat(f, FlatMap(pick, init), pick(last));
    }
  }

  lemma SumSingle<T>(f: T -> int, x: T)
    ensures Sum(f, [x]) == f(x) && Sum(f, []) == 0
  {
    assert [x][..0] == [];
  }

  /** A sum over the sorted, filtered picks of a list is a sum over the list itself. */
  lemma PickedSum<T, U(!new)>(f: U -> int, q: U -> bool, key: U -> Key, pick: T -> seq<U>, h: U -> int, g: T -> int,
                              s: seq<T>)
    requires forall u :: h(u) == if q(u) then f(u) else 0
    requires forall x :: x in s ==> g(x) == Sum(h, pick(x))
    ensures Sum(f, Filter(q, Sort(key, FlatMap(pick, s)))) == Sum(g, s)
  {
    SumFilter(f, q, h, Sort(key, FlatMap(pick, s)));
    SumSort(h, key, FlatMap(pick, s));
    SumFlatMap(h, pick, g, s);
  }

  function One<T>(x: T): int { 1 }

  lemma {:induction false} SumOfOnes<T>(s: seq<T>)
    ensures Sum(One, s) == |s|
  {
    if s != [] {
      SumOfOnes(s[..|s| - 1]);
    }
  }

  // ---- Merging a partial computation into an old one ----

  function Not<T>(p: T -> bool): T -> bool {
    x => !p(x)
  }

  /** Keep the old entries outside the change and add what was computed for it. */
  function Merge<T>(key: T -> Key, outside: T -> bool, old': seq<T>, computed: seq<T>): seq<T> {
    Sort(key, Filter(outside, old') + computed)
  }

  lemma MergeIsNew<T(!new)>(key: T -> Key, outside: T -> bool, old': seq<T>, computed: seq<T>, new': seq<T>)
    requires Sorted(key, new') && Filter(outside, old') == Filter(outside, new') &&
      computed == Filter(Not(outside), new')
    requires forall x, y :: key(x) == key(y) ==> outside(x) == outside(y)
    ensures Merge(key, outside, old', computed) == new'
  {
    var mixed := Filter(outside, old') + computed;
    SortSorted(key, mixed);
    forall k
      ensures Filter(KeyIs(key, k), Sort(key, mixed)) == Filter(KeyIs(key, k), new')
    {
      MergedRun(key, outside, new', k);
    }
    SortedByRuns(key, Sort(key, mixed), new');
  }

  lemma MergedRun<T(!new)>(key: T -> Key, outside: T -> bool, s: seq<T>, k: Key)
    requires forall x, y :: key(x) == key(y) ==> outside(x) == outside(y)
    ensures Filter(KeyIs(key, k), Sort(key, Filter(outside, s) + Filter(Not(outside), s))) == Filter(KeyIs(key, k), s)
  {
    var run := KeyIs(key, k);
    FilterSort(key, run, Filter(outside, s) + Filter(Not(outside), s));
    FilterConcat(run, Filter(outside, s), Filter(Not(outside), s));
    RunSplits(key, outside, s, k);
    FilterMembers(run, s);
    SortRun(key, Filter(run, s), k);
  }

  lemma RunSplits<T(!new)>(key: T -> Key, outside: T -> bool, s: seq<T>, k: Key)
    requires forall x, y :: key(x) == key(y) ==> outside(x) == outside(y)
    ensures Filter(KeyIs(key, k), Filter(outside, s))
      + Filter(KeyIs(key, k), Filter(Not(outside), s)) == Filter(KeyIs(key, k), s)
  {
    var run := KeyIs(key, k);
    var none := (x: T) => false;
    FilterUniform(none, s, false);
    if x :| x in s && run(x) && outside(x) {
      FilterTwice(run, outside, run, s);
      FilterTwice(run, Not(outside), none, s);
    } else {
      FilterTwice(run, outside, none, s);
      FilterTwice(run, Not(outside), run, s);
    }
  }

  lemma {:induction false} SortRun<T>(key: T -> Key, s: seq<T>, k: Key)
    requires forall x :: x in s ==> key(x) == k
    ensures Sort(key, s) == s
  {
    if s != [] {
      SortRun(key, s[..|s| - 1], k);
      KeyLessOrder(k, k, k);
      assert s == s[..|s| - 1] + [s[|s| - 1]];
    }
  }

  // ---- Grouping loops ----

  function Get<K, V>(m: map<K, seq<V>>, k: K): seq<V> {
    if k in m then m[k] else []
  }

  /** `m` is the `defaultdict(list)` over `s`. */
  ghost predicate Grouped<T, K(!new)>(key: T -> K, s: seq<T>, m: map<K, seq<T>>) {
    forall k :: Get(m, k) == Filter(KeyIs(key, k), s)
  }

  /** The `defaultdict(list)` loop: one pass appends every element to the list of its key. */
  method GroupBy<T, K(==,!new)>(key: T -> K, s: seq<T>) returns (m: map<K, seq<T>>)
    ensures Grouped(key, s, m)
    ensures forall k :: k in m <==> exists i :: 0 <= i < |s| && key(s[i]) == k
  {
    m := map[];
    for i := 0 to |s|
      invariant forall k :: Get(m, k) == Filter(KeyIs(key, k), s[..i])
      invariant forall k :: k in m <==> exists j :: 0 <= j < i && key(s[j]) == k
    {
      var k := key(s[i]);
      m := m[k := Get(m, k) + [s[i]]];
      assert s[..i + 1][..i] == s[..i];
    }
    assert s[..|s|] == s;
  }

  /** `sorted(set)`: the one strictly sorted list of the set's elements. */
  method SortedList<T(==,!new)>(key: T -> Key, s: set<T>) returns (l: seq<T>)
    requires forall x, y :: x in s && y in s && key(x) == key(y) ==> x == y
    ensures StrictlySorted(key, l)
    ensures forall x :: x in l <==> x in s
  {
    l := [];
    var rest := s;
    while rest != {}
      invariant rest <= s
      invariant forall x :: x in l <==> x in s && x !in rest
      invariant forall i, j :: 0 <= i < j < |l| ==> l[i] != l[j]
      decreases rest
    {
      var x :| x in rest;
      l, rest := l + [x], rest - {x};
    }
    forall i, j | 0 <= i < j < |l|
      ensures key(l[i]) != key(l[j])
    {
      assert l[i] in l && l[j] in l;
    }
    SortStrict(key, l);
    SortMembers(key, l);
    l := Sort(key, l);
  }

  lemma Inhabited(s: set<int>)
    ensures s == {} || exists v :: v in s
  {
    assert (forall v :: v !in s) ==> s == {};
  }

  function IntKey(n: int): Key { [N(n)] }

  lemma IntKeyOrder(s: seq<int>)
    requires StrictlySorted(IntKey, s)
    ensures forall i, j :: 0 <= i < j < |s| ==> s[i] < s[j]
  {
    forall i, j | 0 <= i < j < |s|
      ensures s[i] < s[j]
    {
      var a, b := IntKey(s[i]), IntKey(s[j]);
      assert KeyLess(a, b) && a[1..] == [] && b[1..] == [];
      assert !KeyLess([], []);
    }
  }

  function StringKey(s: string): Key { [S(s)] }

  lemma StringKeyOrder(s: seq<string>)
    requires StrictlySorted(StringKey, s)
    ensures forall i, j :: 0 <= i < j < |s| ==> StringLess(s[i], s[j])
  {
    forall i, j | 0 <= i < j < |s|
      ensures StringLess(s[i], s[j])
    {
      var a, b := StringKey(s[i]), StringKey(s[j]);
      assert KeyLess(a, b) && a[1..] == [] && b[1..] == [];
      assert !KeyLess([], []);
    }
  }

  // ---- `defaultdict(set)` ----

  function At<K, V>(m: map<K, set<V>>, k: K): set<V> {
    if k in m then m[k] else {}
  }

  /** `m[k].add(v)`. */
  function Put<K, V>(m: map<K, set<V>>, k: K, v: V): map<K, set<V>> {
    m[k := At(m, k) + {v}]
  }
}
