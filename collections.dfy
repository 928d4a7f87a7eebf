/** List and dictionary operations the core borrows from Python: slicing,
    the stable built-in sort, first-occurrence de-duplication, and the
    insertion-ordered `dict`. */
module Collections {

  import opened Wrappers

  /** Python's `s[:n]`: the first `n` elements for `n >= 0`, all but the last
      `-n` elements for a negative `n`, and never more than `s`. */
  function Take<T>(s: seq<T>, n: int): (r: seq<T>)
    ensures |r| <= |s| && r == s[..|r|]
    ensures n >= 0 ==> |r| == if n <= |s| then n else |s|
    ensures n < 0 ==> |r| == if -n <= |s| then |s| + n else 0
  {
    if n >= 0 then (if n <= |s| then s[..n] else s)
    else if -n <= |s| then s[..|s| + n] else []
  }

  /** Every element of a slice `s[:n]` is an element of `s`. */
  lemma TakeElements<T>(s: seq<T>, n: int)
    ensures forall x :: x in Take(s, n) ==> x in s
  {
    var r := Take(s, n);
    forall x | x in r ensures x in s {
      var i :| 0 <= i < |r| && r[i] == x;
      assert s[i] == x;
    }
  }

  /** Slicing twice with non-negative bounds keeps the shorter slice. */
  lemma TakeTake<T>(s: seq<T>, m: int, n: int)
    requires 0 <= n <= m
    ensures Take(Take(s, m), n) == Take(s, n)
  {
  }

  // ---------------------------------------------------------------------
  // The stable sort (`list.sort(key=...)`, `sorted(..., key=...)`).
  // ---------------------------------------------------------------------

  /** Non-decreasing by `key`. */
  ghost predicate SortedBy<T>(s: seq<T>, key: T -> int) {
    forall i, j :: 0 <= i < j < |s| ==> key(s[i]) <= key(s[j])
  }

  /** Inserts `x` after every element whose key is at most `key(x)`, so equal
      keys keep their order of arrival. */
  function Insert<T>(s: seq<T>, x: T, key: T -> int): (r: seq<T>)
    ensures |r| == |s| + 1
  {
    if s == [] then [x]
    else if key(s[0]) <= key(x) then [s[0]] + Insert(s[1..], x, key)
    else [x] + s
  }

  /** A stable sort by `key`, ascending: insertion of each element in turn.
      This is the ordering Python's sort produces. */
  function SortBy<T>(s: seq<T>, key: T -> int): (r: seq<T>)
    ensures |r| == |s|
  {
    if s == [] then [] else Insert(SortBy(s[..|s| - 1], key), s[|s| - 1], key)
  }

  lemma {:induction false} InsertPermutation<T>(s: seq<T>, x: T, key: T -> int)
    ensures multiset(Insert(s, x, key)) == multiset(s) + multiset{x}
  {
    if s != [] && key(s[0]) <= key(x) {
      InsertPermutation(s[1..], x, key);
      assert s == [s[0]] + s[1..];
    }
  }

  /** Sorting only reorders. */
  lemma {:induction false} SortByPermutation<T>(s: seq<T>, key: T -> int)
    ensures multiset(SortBy(s, key)) == multiset(s)
  {
    if s != [] {
      SortByPermutation(s[..|s| - 1], key);
      InsertPermutation(SortBy(s[..|s| - 1], key), s[|s| - 1], key);
      assert s == s[..|s| - 1] + [s[|s| - 1]];
    }
  }

  /** Whatever holds of every element of `s` and of `x` holds of every
      element of `Insert(s, x, key)`. */
  lemma {:induction false} InsertEach<T>(s: seq<T>, x: T, key: T -> int, p: T -> bool)
    requires forall i :: 0 <= i < |s| ==> p(s[i])
    requires p(x)
    ensures forall i :: 0 <= i < |Insert(s, x, key)| ==> p(Insert(s, x, key)[i])
  {
    if s != [] && key(s[0]) <= key(x) {
      InsertEach(s[1..], x, key, p);
      assert Insert(s, x, key) == [s[0]] + Insert(s[1..], x, key);
    }
  }

  /** Whatever holds of every element of `s` holds of every element of its
      sorted version. */
  lemma {:induction false} SortByEach<T>(s: seq<T>, key: T -> int, p: T -> bool)
    requires forall i :: 0 <= i < |s| ==> p(s[i])
    ensures forall i :: 0 <= i < |SortBy(s, key)| ==> p(SortBy(s, key)[i])
  {
    if s != [] {
      var init := s[..|s| - 1];
      assert forall i :: 0 <= i < |init| ==> init[i] == s[i];
      SortByEach(init, key, p);
      InsertEach(SortBy(init, key), s[|s| - 1], key, p);
    }
  }

  lemma {:induction false} InsertSorted<T>(s: seq<T>, x: T, key: T -> int)
    requires SortedBy(s, key)
    ensures SortedBy(Insert(s, x, key), key)
  {
    if s != [] && key(s[0]) <= key(x) {
      InsertSorted(s[1..], x, key);
      var t := Insert(s[1..], x, key);
      var lo := key(s[0]);
      InsertEach(s[1..], x, key, y => lo <= key(y));
      assert Insert(s, x, key) == [s[0]] + t;
    }
  }

  /** The sort's result is ordered by `key`. */
  lemma {:induction false} SortBySorted<T>(s: seq<T>, key: T -> int)
    ensures SortedBy(SortBy(s, key), key)
  {
    if s != [] {
      SortBySorted(s[..|s| - 1], key);
      InsertSorted(SortBy(s[..|s| - 1], key), s[|s| - 1], key);
    }
  }

  /** The elements with key `k`, in their order in `s`. */
  function WithKey<T>(s: seq<T>, key: T -> int, k: int): (r: seq<T>)
    ensures forall i :: 0 <= i < |r| ==> key(r[i]) == k
  {
    if s == [] then [] else (if key(s[0]) == k then [s[0]] else []) + WithKey(s[1..], key, k)
  }

  lemma {:induction false} WithKeyAppend<T>(a: seq<T>, b: seq<T>, key: T -> int, k: int)
    ensures WithKey(a + b, key, k) == WithKey(a, key, k) + WithKey(b, key, k)
  {
    if a != [] {
      assert (a + b)[0] == a[0] && (a + b)[1..] == a[1..] + b;
      WithKeyAppend(a[1..], b, key, k);
    } else {
      assert a + b == b;
    }
  }

  lemma {:induction false} WithKeyNone<T>(s: seq<T>, key: T -> int, k: int)
    requires forall i :: 0 <= i < |s| ==> key(s[i]) > k
    ensures WithKey(s, key, k) == []
  {
    if s != [] { WithKeyNone(s[1..], key, k); }
  }

  lemma {:induction false} InsertWithKey<T>(s: seq<T>, x: T, key: T -> int, k: int)
    requires SortedBy(s, key)
    ensures WithKey(Insert(s, x, key), key, k) == WithKey(s, key, k) + WithKey([x], key, k)
  {
    if s == [] {
    } else if key(s[0]) <= key(x) {
      InsertWithKey(s[1..], x, key, k);
      assert Insert(s, x, key) == [s[0]] + Insert(s[1..], x, key);
      assert WithKey(Insert(s, x, key), key, k) == WithKey([s[0]], key, k) + WithKey(Insert(s[1..], x, key), key, k) by {
        WithKeyAppend([s[0]], Insert(s[1..], x, key), key, k);
      }
      WithKeyAppend([s[0]], s[1..], key, k);
      assert [s[0]] + s[1..] == s;
    } else {
      assert Insert(s, x, key) == [x] + s;
      WithKeyAppend([x], s, key, k);
      if key(x) == k {
        WithKeyNone(s, key, k);
      }
    }
  }

  /** Stability: for every key, the elements with that key come out in the
      order they went in. */
  lemma {:induction false} SortByStable<T>(s: seq<T>, key: T -> int, k: int)
    ensures WithKey(SortBy(s, key), key, k) == WithKey(s, key, k)
  {
    if s != [] {
      var init := s[..|s| - 1];
      SortByStable(init, key, k);
      SortBySorted(init, key);
      InsertWithKey(SortBy(init, key), s[|s| - 1], key, k);
      WithKeyAppend(init, [s[|s| - 1]], key, k);
      assert init + [s[|s| - 1]] == s;
    }
  }

  /** Sorting gives the same elements back. */
  lemma SortByElements<T>(s: seq<T>, key: T -> int)
    ensures forall x :: x in SortBy(s, key) <==> x in s
  {
    var r := SortBy(s, key);
    SortByPermutation(s, key);
    assert forall x :: x in r <==> x in multiset(r);
  }

  /** The first `n` after a stable sort: ordered, drawn from `s`, and nothing
      left out has a smaller key than anything kept; when `n` covers `s`, a
      permutation of it. */
  lemma TakeSortBySelects<T>(s: seq<T>, key: T -> int, n: int)
    ensures SortedBy(Take(SortBy(s, key), n), key)
    ensures forall x :: x in Take(SortBy(s, key), n) ==> x in s
    ensures var r := Take(SortBy(s, key), n);
            forall i, j :: 0 <= i < |r| && 0 <= j < |s| && s[j] !in r ==> key(r[i]) <= key(s[j])
    ensures n >= |s| ==> multiset(Take(SortBy(s, key), n)) == multiset(s)
  {
    var sorted := SortBy(s, key);
    var r := Take(sorted, n);
    SortBySorted(s, key);
    SortByElements(s, key);
    TakeElements(sorted, n);
    forall i, j | 0 <= i < |r| && 0 <= j < |s| && s[j] !in r ensures key(r[i]) <= key(s[j]) {
      assert s[j] in s;
      PrefixKeyBound(sorted, key, |r|, i, s[j]);
    }
    if n >= |s| {
      SortByPermutation(s, key);
      assert r == sorted;
    }
  }

  /** In a sorted sequence, an element outside a prefix has no smaller key
      than one inside it. */
  lemma PrefixKeyBound<T>(s: seq<T>, key: T -> int, m: nat, i: nat, x: T)
    requires SortedBy(s, key) && i < m <= |s|
    requires x in s && x !in s[..m]
    ensures key(s[i]) <= key(x)
  {
    var q :| 0 <= q < |s| && s[q] == x;
    assert m <= q;
  }

  /** The first `n` after a stable sort keep, for every key, a prefix of the
      elements with that key in their original order. */
  lemma TakeSortByStable<T>(s: seq<T>, key: T -> int, n: int, k: int)
    ensures var w, t := WithKey(s, key, k), WithKey(Take(SortBy(s, key), n), key, k);
            |t| <= |w| && w[..|t|] == t
  {
    var sorted := SortBy(s, key);
    var r := Take(sorted, n);
    assert sorted == r + sorted[|r|..];
    WithKeyAppend(r, sorted[|r|..], key, k);
    SortByStable(s, key, k);
  }

  /** No two elements of `s` share the same `f`. */
  ghost predicate DistinctBy<T, U>(s: seq<T>, f: T -> U) {
    forall i, j :: 0 <= i < j < |s| ==> f(s[i]) != f(s[j])
  }

  lemma {:induction false} InsertDistinct<T, U>(s: seq<T>, x: T, key: T -> int, f: T -> U)
    requires DistinctBy(s, f)
    requires forall i :: 0 <= i < |s| ==> f(s[i]) != f(x)
    ensures DistinctBy(Insert(s, x, key), f)
  {
    if s != [] && key(s[0]) <= key(x) {
      InsertDistinct(s[1..], x, key, f);
      var t := Insert(s[1..], x, key);
      var v := f(s[0]);
      InsertEach(s[1..], x, key, y => f(y) != v);
      assert Insert(s, x, key) == [s[0]] + t;
    }
  }

  /** Sorting keeps a sequence free of repeated `f` values. */
  lemma {:induction false} SortByDistinct<T, U>(s: seq<T>, key: T -> int, f: T -> U)
    requires DistinctBy(s, f)
    ensures DistinctBy(SortBy(s, key), f)
  {
    if s != [] {
      var init := s[..|s| - 1];
      var x := s[|s| - 1];
      assert forall i, j :: 0 <= i < j < |init| ==> init[i] == s[i] && init[j] == s[j];
      SortByDistinct(init, key, f);
      var t := SortBy(init, key);
      var v := f(x);
      SortByEach(init, key, y => f(y) != v);
      InsertDistinct(t, x, key, f);
    }
  }

  // ---------------------------------------------------------------------
  // First-occurrence de-duplication.
  // ---------------------------------------------------------------------

  /** The distinct elements of `s` in the order of their first occurrence. */
  function Dedup<T(==)>(s: seq<T>): (r: seq<T>)
    ensures |r| <= |s|
    ensures forall i :: 0 <= i < |r| ==> r[i] in s
    ensures forall i :: 0 <= i < |s| ==> s[i] in r
    ensures forall i, j :: 0 <= i < j < |r| ==> r[i] != r[j]
  {
    if s == [] then []
    else
      var d := Dedup(s[..|s| - 1]);
      assert forall i :: 0 <= i < |s| - 1 ==> s[i] == s[..|s| - 1][i];
      if s[|s| - 1] in d then d else d + [s[|s| - 1]]
  }

  /** The position of the first occurrence of `x`. */
  function FirstIndex<T(==)>(s: seq<T>, x: T): (i: nat)
    requires x in s
    ensures i < |s| && s[i] == x
    ensures forall k :: 0 <= k < i ==> s[k] != x
  {
    if s[0] == x then 0 else 1 + FirstIndex(s[1..], x)
  }

  lemma FirstIndexAt<T>(s: seq<T>, x: T, i: nat)
    requires i < |s| && s[i] == x
    requires forall k :: 0 <= k < i ==> s[k] != x
    ensures FirstIndex(s, x) == i
  {
  }

  /** `Dedup` lists the distinct elements in the order they first occur. */
  lemma {:induction false} DedupOrder<T>(s: seq<T>)
    ensures forall i, j :: 0 <= i < j < |Dedup(s)| ==>
              FirstIndex(s, Dedup(s)[i]) < FirstIndex(s, Dedup(s)[j])
  {
    if s != [] {
      var p, x := s[..|s| - 1], s[|s| - 1];
      var d := Dedup(p);
      DedupOrder(p);
      forall y | y in p ensures FirstIndex(s, y) == FirstIndex(p, y) {
        var i := FirstIndex(p, y);
        assert forall k :: 0 <= k <= i ==> s[k] == p[k];
        FirstIndexAt(s, y, i);
      }
      if x !in d {
        assert x !in p;
        assert forall k :: 0 <= k < |p| ==> s[k] == p[k];
        FirstIndexAt(s, x, |s| - 1);
        assert Dedup(s) == d + [x];
      }
    }
  }

  // ---------------------------------------------------------------------
  // The insertion-ordered dictionary.
  // ---------------------------------------------------------------------

  /** A Python `dict`: its entries in insertion order. Assigning to a key that
      is already present replaces the value and keeps the key's position. */
  datatype Dict<K(==), V> = Dict(entries: seq<(K, V)>) {

    function Keys(): (r: seq<K>)
      ensures |r| == |entries|
      ensures forall i :: 0 <= i < |r| ==> r[i] == entries[i].0
    {
      seq(|entries|, i requires 0 <= i < |entries| => entries[i].0)
    }

    /** No key occurs twice, as in every `dict`. */
    ghost predicate Valid() {
      forall i, j :: 0 <= i < j < |entries| ==> entries[i].0 != entries[j].0
    }

    /** `d.get(k)`: the value stored under `k`, if any. */
    function Get(k: K): (r: Option<V>)
      ensures r.None? <==> k !in Keys()
      decreases |entries|
    {
      if entries == [] then None
      else if entries[0].0 == k then Some(entries[0].1)
      else Rest().Get(k)
    }

    function Rest(): (r: Dict<K, V>)
      requires entries != []
      ensures r.Keys() == Keys()[1..]
    {
      Dict(entries[1..])
    }

    /** `d[k] = v`: a new key goes to the end, an existing one keeps its
        place. */
    function Put(k: K, v: V): (r: Dict<K, V>)
      ensures r.Keys() == if k in Keys() then Keys() else Keys() + [k]
      decreases |entries|
    {
      if entries == [] then Dict([(k, v)])
      else if entries[0].0 == k then Dict([(k, v)] + entries[1..])
      else
        var rest := Rest().Put(k, v);
        assert Keys() == [entries[0].0] + Rest().Keys();
        Dict([entries[0]] + rest.entries)
    }
  }

  /** After `d[k] = v`, `k` holds `v` and every other key holds what it held. */
  lemma {:induction false} PutGet<K, V>(d: Dict<K, V>, k: K, v: V, k': K)
    ensures d.Put(k, v).Get(k') == if k' == k then Some(v) else d.Get(k')
    decreases |d.entries|
  {
    if d.entries != [] && d.entries[0].0 != k {
      PutGet(d.Rest(), k, v, k');
      assert d.Put(k, v).Rest() == d.Rest().Put(k, v);
    }
  }

  /** Assigning twice to the same key is assigning the second value. */
  lemma {:induction false} PutPut<K, V>(d: Dict<K, V>, k: K, a: V, b: V)
    ensures d.Put(k, a).Put(k, b) == d.Put(k, b)
    decreases |d.entries|
  {
    if d.entries != [] && d.entries[0].0 != k {
      PutPut(d.Rest(), k, a, b);
      assert d.Put(k, a).Rest() == d.Rest().Put(k, a);
    }
  }

  /** A value found under `k` is the value of an entry with key `k`. */
  lemma {:induction false} GetSome<K, V>(d: Dict<K, V>, k: K)
    requires d.Get(k).Some?
    ensures exists i :: 0 <= i < |d.entries| && d.entries[i] == (k, d.Get(k).value)
    decreases |d.entries|
  {
    if d.entries[0].0 != k {
      GetSome(d.Rest(), k);
      var i :| 0 <= i < |d.Rest().entries| && d.Rest().entries[i] == (k, d.Get(k).value);
      assert d.entries[i + 1] == d.Rest().entries[i];
    }
  }

  /** Assignment keeps the keys distinct. */
  lemma PutValid<K, V>(d: Dict<K, V>, k: K, v: V)
    requires d.Valid()
    ensures d.Put(k, v).Valid()
  {
    var r := d.Put(k, v);
    assert forall i :: 0 <= i < |r.entries| ==> r.entries[i].0 == r.Keys()[i];
    assert forall i :: 0 <= i < |d.entries| ==> d.entries[i].0 == d.Keys()[i];
  }

  /** Assigning each pair in turn, as `for k, v in pairs: d[k] = v`. */
  function PutAll<K(==), V>(d: Dict<K, V>, pairs: seq<(K, V)>): Dict<K, V>
  {
    if pairs == [] then d else PutAll(d, pairs[..|pairs| - 1]).Put(pairs[|pairs| - 1].0, pairs[|pairs| - 1].1)
  }

  /** Adding the pairs one at a time. */
  lemma PutAllStep<K, V>(d: Dict<K, V>, pairs: seq<(K, V)>, i: nat)
    requires i < |pairs|
    ensures PutAll(d, pairs[..i + 1]) == PutAll(d, pairs[..i]).Put(pairs[i].0, pairs[i].1)
  {
    assert pairs[..i + 1][..i] == pairs[..i];
  }

  function FirstComponents<K, V>(pairs: seq<(K, V)>): (r: seq<K>)
    ensures |r| == |pairs|
    ensures forall i :: 0 <= i < |r| ==> r[i] == pairs[i].0
  {
    seq(|pairs|, i requires 0 <= i < |pairs| => pairs[i].0)
  }

  /** Filling an empty dictionary: the keys are the distinct keys of `pairs`
      in first-occurrence order, no key occurs twice, and each key holds the
      value of its last pair. */
  lemma PutAllFromEmpty<K, V>(pairs: seq<(K, V)>)
    ensures PutAll(Dict([]), pairs).Keys() == Dedup(FirstComponents(pairs))
    ensures PutAll(Dict([]), pairs).Valid()
    ensures forall i :: 0 <= i < |pairs| && (forall j :: i < j < |pairs| ==> pairs[j].0 != pairs[i].0) ==>
              PutAll(Dict([]), pairs).Get(pairs[i].0) == Some(pairs[i].1)
  {
    PutAllKeys(pairs);
    PutAllValid(pairs);
    forall i | 0 <= i < |pairs| && (forall j :: i < j < |pairs| ==> pairs[j].0 != pairs[i].0)
      ensures PutAll(Dict([]), pairs).Get(pairs[i].0) == Some(pairs[i].1)
    {
      PutAllLast(pairs, i);
    }
  }

  lemma {:induction false} PutAllKeys<K, V>(pairs: seq<(K, V)>)
    ensures PutAll(Dict([]), pairs).Keys() == Dedup(FirstComponents(pairs))
  {
    if pairs != [] {
      var init := pairs[..|pairs| - 1];
      PutAllKeys(init);
      assert FirstComponents(pairs)[..|pairs| - 1] == FirstComponents(init);
    }
  }

  lemma {:induction false} PutAllValid<K, V>(pairs: seq<(K, V)>)
    ensures PutAll(Dict([]), pairs).Valid()
  {
    if pairs != [] {
      var init := pairs[..|pairs| - 1];
      var last := pairs[|pairs| - 1];
      PutAllValid(init);
      PutValid(PutAll(Dict([]), init), last.0, last.1);
    }
  }

  lemma {:induction false} PutAllLast<K, V>(pairs: seq<(K, V)>, i: nat)
    requires i < |pairs|
    requires forall j :: i < j < |pairs| ==> pairs[j].0 != pairs[i].0
    ensures PutAll(Dict([]), pairs).Get(pairs[i].0) == Some(pairs[i].1)
  {
    var init := pairs[..|pairs| - 1];
    var last := pairs[|pairs| - 1];
    var d := PutAll(Dict([]), init);
    PutGet(d, last.0, last.1, pairs[i].0);
    if i < |pairs| - 1 {
      assert init[i] == pairs[i];
      forall j | i < j < |init| ensures init[j].0 != init[i].0 { assert init[j] == pairs[j]; }
      PutAllLast(init, i);
    }
  }

  // ---------------------------------------------------------------------
  // Grouping into a dictionary of lists.
  // ---------------------------------------------------------------------

  /** The keys of the elements, in order. */
  function KeysOf<T, K>(s: seq<T>, key: T -> K): (r: seq<K>)
    ensures |r| == |s|
    ensures forall i :: 0 <= i < |s| ==> r[i] == key(s[i])
  {
    seq(|s|, i requires 0 <= i < |s| => key(s[i]))
  }

  /** The elements whose key is `k`, in order. */
  function Group<T, K(==)>(s: seq<T>, key: T -> K, k: K): (r: seq<T>)
    ensures |r| <= |s|
    ensures forall i :: 0 <= i < |r| ==> r[i] in s && key(r[i]) == k
  {
    if s == [] then []
    else
      var init := Group(s[..|s| - 1], key, k);
      if key(s[|s| - 1]) == k then init + [s[|s| - 1]] else init
  }

  /** `for x in s: d.setdefault(key(x), []).append(x)`, from an empty `d`. */
  function GroupBy<T, K(==)>(s: seq<T>, key: T -> K): Dict<K, seq<T>> {
    if s == [] then Dict([])
    else
      var d := GroupBy(s[..|s| - 1], key);
      var x := s[|s| - 1];
      d.Put(key(x), d.Get(key(x)).GetOr([]) + [x])
  }

  lemma GroupByStep<T, K>(s: seq<T>, key: T -> K, i: nat)
    requires i < |s|
    ensures var d := GroupBy(s[..i], key);
            GroupBy(s[..i + 1], key) == d.Put(key(s[i]), d.Get(key(s[i])).GetOr([]) + [s[i]])
  {
    assert s[..i + 1][..i] == s[..i];
  }

  /** `d.setdefault(k, []).append(x)` is one assignment of the extended
      list. */
  lemma SetDefaultAppend<K, V>(d: Dict<K, seq<V>>, k: K, x: V)
    ensures var d' := if k in d.Keys() then d else d.Put(k, []);
            && d'.Get(k).Some?
            && d'.Put(k, d'.Get(k).value + [x]) == d.Put(k, d.Get(k).GetOr([]) + [x])
  {
    if k !in d.Keys() {
      var d' := d.Put(k, []);
      PutGet(d, k, [], k);
      assert d'.Get(k) == Some([]);
      assert d.Get(k) == None;
      assert d'.Get(k).value + [x] == [x];
      assert d.Get(k).GetOr([]) + [x] == [x];
      PutPut(d, k, [], [x]);
    }
  }

  /** The keys are the distinct keys of the elements, in order of first
      appearance. */
  lemma {:induction false} GroupByKeys<T, K>(s: seq<T>, key: T -> K)
    ensures GroupBy(s, key).Keys() == Dedup(KeysOf(s, key))
  {
    if s != [] {
      var init := s[..|s| - 1];
      GroupByKeys(init, key);
      assert KeysOf(s, key)[..|s| - 1] == KeysOf(init, key);
    }
  }

  lemma {:induction false} GroupByValid<T, K>(s: seq<T>, key: T -> K)
    ensures GroupBy(s, key).Valid()
  {
    if s != [] {
      var init := s[..|s| - 1];
      var x := s[|s| - 1];
      var d := GroupBy(init, key);
      GroupByValid(init, key);
      PutValid(d, key(x), d.Get(key(x)).GetOr([]) + [x]);
    }
  }

  /** Under each key are exactly the elements with that key, in their
      original relative order. */
  lemma {:induction false} GroupByGet<T, K>(s: seq<T>, key: T -> K, k: K)
    ensures GroupBy(s, key).Get(k) == if k in KeysOf(s, key) then Some(Group(s, key, k)) else None
  {
    if s != [] {
      var init := s[..|s| - 1];
      var x := s[|s| - 1];
      var d := GroupBy(init, key);
      GroupByGet(init, key, k);
      assert KeysOf(s, key) == KeysOf(init, key) + [key(x)];
      PutGet(d, key(x), d.Get(key(x)).GetOr([]) + [x], k);
      if k == key(x) && k !in KeysOf(init, key) {
        GroupNone(init, key, k);
      }
    }
  }

  lemma {:induction false} GroupNone<T, K>(s: seq<T>, key: T -> K, k: K)
    requires k !in KeysOf(s, key)
    ensures Group(s, key, k) == []
  {
    if s != [] {
      var init := s[..|s| - 1];
      assert KeysOf(s, key) == KeysOf(init, key) + [key(s[|s| - 1])];
      GroupNone(init, key, k);
    }
  }

  /** Every element is in the group of its own key. */
  lemma {:induction false} InOwnGroup<T, K>(s: seq<T>, key: T -> K, i: nat)
    requires i < |s|
    ensures s[i] in Group(s, key, key(s[i]))
  {
    if i < |s| - 1 {
      var init := s[..|s| - 1];
      assert init[i] == s[i];
      InOwnGroup(init, key, i);
    }
  }
}
