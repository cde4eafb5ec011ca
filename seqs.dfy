/** The list and dictionary operations every store in the system is built from:
    `Array.prototype.filter`, `findIndex`/`find`, and the count dictionaries that
    `forEach` loops fill in. Each is defined once here, over `seq` and `map`. */
module Seqs {
  import opened Outcomes

  // ---------------------------------------------------------------------------
  // filter

  /** The elements of `s` that satisfy `p`, in their order in `s`. Defined from
      the back so that appending to a ledger appends to its filtered views. */
  function Filter<T(!new)>(s: seq<T>, p: T -> bool): (r: seq<T>)
    ensures |r| <= |s|
    ensures forall x :: x in r <==> x in s && p(x)
    decreases |s|
  {
    if s == [] then []
    else
      var init, last := s[..|s| - 1], s[|s| - 1];
      assert s == init + [last];
      Filter(init, p) + (if p(last) then [last] else [])
  }

  /** Filtering distributes over concatenation: the filter of a ledger that grew
      by `b` is the old filter followed by the filter of `b`. */
  lemma {:induction false} FilterAppend<T(!new)>(a: seq<T>, b: seq<T>, p: T -> bool)
    ensures Filter(a + b, p) == Filter(a, p) + Filter(b, p)
    decreases |b|
  {
    if b != [] {
      var b', last := b[..|b| - 1], b[|b| - 1];
      assert (a + b)[..|a + b| - 1] == a + b';
      assert (a + b)[|a + b| - 1] == last;
      FilterAppend(a, b', p);
      calc {
        Filter(a + b, p);
        Filter(a + b', p) + (if p(last) then [last] else []);
        Filter(a, p) + Filter(b', p) + (if p(last) then [last] else []);
        Filter(a, p) + Filter(b, p);
      }
    } else {
      assert a + b == a;
    }
  }

  /** The filter keeps every occurrence of a selected element and none of the
      others. */
  lemma {:induction false} FilterMultiset<T(!new)>(s: seq<T>, p: T -> bool)
    ensures forall x :: multiset(Filter(s, p))[x] == (if p(x) then multiset(s)[x] else 0)
    decreases |s|
  {
    if s != [] {
      var init, last := s[..|s| - 1], s[|s| - 1];
      assert s == init + [last];
      FilterMultiset(init, p);
    }
  }

  /** Filtering a list with one more element at the front puts that element,
      when it is kept, in front of the old filter. */
  lemma FilterCons<T(!new)>(x: T, s: seq<T>, p: T -> bool)
    ensures Filter([x] + s, p) == (if p(x) then [x] else []) + Filter(s, p)
  {
    assert [x][..0] == [];
    assert Filter([x], p) == Filter([], p) + (if p(x) then [x] else []);
    FilterAppend([x], s, p);
  }

  /** Two neighbours that do not both pass can trade places without changing
      the filter. */
  lemma FilterSwap<T(!new)>(x: T, y: T, s: seq<T>, p: T -> bool)
    requires !(p(x) && p(y))
    ensures Filter([x] + ([y] + s), p) == Filter([y] + ([x] + s), p)
  {
    FilterCons(x, [y] + s, p);
    FilterCons(y, s, p);
    FilterCons(y, [x] + s, p);
    FilterCons(x, s, p);
  }

  /** Two predicates that agree on the elements of `s` select the same elements. */
  lemma {:induction false} FilterExt<T(!new)>(s: seq<T>, p: T -> bool, q: T -> bool)
    requires forall x :: x in s ==> p(x) == q(x)
    ensures Filter(s, p) == Filter(s, q)
    decreases |s|
  {
    if s != [] {
      FilterExt(s[..|s| - 1], p, q);
    }
  }

  /** Filtering by `p` and then by `q` is filtering once by their conjunction `pq`:
      a filter of a filter is an order-preserving subsequence of both. */
  lemma {:induction false} FilterFilter<T(!new)>(s: seq<T>, p: T -> bool, q: T -> bool, pq: T -> bool)
    requires forall x :: pq(x) == (p(x) && q(x))
    ensures Filter(Filter(s, p), q) == Filter(s, pq)
    decreases |s|
  {
    if s != [] {
      var init, last := s[..|s| - 1], s[|s| - 1];
      FilterFilter(init, p, q, pq);
      FilterAppend(Filter(init, p), if p(last) then [last] else [], q);
    }
  }

  /** A predicate and its negation split `s`: their filters add up to all of it. */
  lemma {:induction false} FilterSplit<T(!new)>(s: seq<T>, p: T -> bool, notP: T -> bool)
    requires forall x :: notP(x) == !p(x)
    ensures |Filter(s, p)| + |Filter(s, notP)| == |s|
    decreases |s|
  {
    if s != [] {
      FilterSplit(s[..|s| - 1], p, notP);
    }
  }

  /** A filter keeps every element exactly when the predicate holds throughout. */
  lemma {:induction false} FilterAll<T(!new)>(s: seq<T>, p: T -> bool)
    requires forall x :: x in s ==> p(x)
    ensures Filter(s, p) == s
    decreases |s|
  {
    if s != [] {
      var init, last := s[..|s| - 1], s[|s| - 1];
      assert s == init + [last];
      FilterAll(init, p);
    }
  }

  // ---------------------------------------------------------------------------
  // findIndex / find

  /** `Array.prototype.findIndex`: the first index whose element satisfies `p`,
      or -1 when there is none. */
  function FindIndex<T>(s: seq<T>, p: T -> bool): (i: int)
    ensures -1 <= i < |s|
    ensures i == -1 <==> forall j :: 0 <= j < |s| ==> !p(s[j])
    ensures 0 <= i ==> p(s[i]) && forall j :: 0 <= j < i ==> !p(s[j])
    decreases |s|
  {
    if s == [] then -1
    else if p(s[0]) then 0
    else
      var k := FindIndex(s[1..], p);
      if k == -1 then -1 else k + 1
  }

  /** Replacing the first match by another match keeps it the first match. */
  lemma FindIndexAfterUpdate<T>(s: seq<T>, x: T, p: T -> bool)
    requires FindIndex(s, p) >= 0 && p(x)
    ensures FindIndex(s[FindIndex(s, p) := x], p) == FindIndex(s, p)
  {
    var i, s' := FindIndex(s, p), s[FindIndex(s, p) := x];
    assert p(s'[i]);
  }

  /** `Array.prototype.find`: the first element satisfying `p`, if any. */
  function Find<T>(s: seq<T>, p: T -> bool): (r: Option<T>)
    ensures r.None? <==> forall x :: x in s ==> !p(x)
    ensures r.Some? ==> exists i :: 0 <= i < |s| && s[i] == r.value && p(s[i])
                          && forall j :: 0 <= j < i ==> !p(s[j])
  {
    var i := FindIndex(s, p);
    if i == -1 then None else Some(s[i])
  }

  /** Removing the entry at `i` (`splice(i, 1)`) lowers the number of entries
      satisfying `p` by one when that entry satisfies `p`, and leaves it alone otherwise. */
  lemma SpliceFilterLength<T(!new)>(s: seq<T>, i: nat, p: T -> bool)
    requires i < |s|
    ensures |Filter(s[..i] + s[i + 1..], p)| == |Filter(s, p)| - (if p(s[i]) then 1 else 0)
  {
    assert s == s[..i] + [s[i]] + s[i + 1..];
    FilterAppend(s[..i] + [s[i]], s[i + 1..], p);
    FilterAppend(s[..i], [s[i]], p);
    FilterAppend(s[..i], s[i + 1..], p);
    assert Filter([s[i]], p) == Filter([], p) + (if p(s[i]) then [s[i]] else []);
  }

  // ---------------------------------------------------------------------------
  // count dictionaries

  /** How many elements of `s` have key `k`. */
  function Count<T, K(==)>(s: seq<T>, key: T -> K, k: K): (n: nat)
    ensures n <= |s|
    decreases |s|
  {
    if s == [] then 0
    else Count(s[..|s| - 1], key, k) + (if key(s[|s| - 1]) == k then 1 else 0)
  }

  /** Counting elements with key `k` is the length of the filter for that key. */
  lemma {:induction false} CountIsFilterLength<T(!new), K>(s: seq<T>, key: T -> K, k: K, p: T -> bool)
    requires forall x :: p(x) == (key(x) == k)
    ensures Count(s, key, k) == |Filter(s, p)|
    decreases |s|
  {
    if s != [] {
      CountIsFilterLength(s[..|s| - 1], key, k, p);
    }
  }

  /** The dictionary `{key: occurrences}` that a `forEach` over `s` fills in with
      `d[key] = (d[key] || 0) + 1`: a key is present exactly when it occurs. */
  function Tally<T, K(==,!new)>(s: seq<T>, key: T -> K): (m: map<K, nat>)
    ensures forall k :: k in m <==> Count(s, key, k) > 0
    ensures forall k :: k in m ==> m[k] == Count(s, key, k)
    decreases |s|
  {
    if s == [] then map[]
    else
      var m := Tally(s[..|s| - 1], key);
      var k := key(s[|s| - 1]);
      m[k := (if k in m then m[k] else 0) + 1]
  }

  /** Some key of a non-empty dictionary. */
  ghost function AnyKey<K>(m: map<K, nat>): (k: K)
    requires |m| > 0
    ensures k in m
  {
    assert m.Keys != {};
    var k :| k in m.Keys;
    k
  }

  /** One more element bumps its key's count by one. */
  lemma TallySnoc<T, K(!new)>(s: seq<T>, x: T, key: T -> K)
    ensures Tally(s + [x], key)
         == Tally(s, key)[key(x) := (if key(x) in Tally(s, key) then Tally(s, key)[key(x)] else 0) + 1]
  {
    assert (s + [x])[..|s|] == s;
  }

  /** The sum of the values of a count dictionary. */
  ghost function MapSum<K>(m: map<K, nat>): nat
    decreases |m|
  {
    if |m| == 0 then 0
    else
      var k := AnyKey(m);
      assert (m - {k}).Keys == m.Keys - {k};
      m[k] + MapSum(m - {k})
  }

  /** MapSum does not depend on which key it picks first. */
  lemma {:induction false} MapSumRemove<K>(m: map<K, nat>, k: K)
    requires k in m
    ensures MapSum(m) == m[k] + MapSum(m - {k})
    decreases |m|
  {
    var j := AnyKey(m);
    assert (m - {j}).Keys == m.Keys - {j};
    if j != k {
      assert (m - {j}).Keys == m.Keys - {j};
      assert (m - {k}).Keys == m.Keys - {k};
      MapSumRemove(m - {j}, k);
      MapSumRemove(m - {k}, j);
      assert m - {j} - {k} == m - {k} - {j};
    }
  }

  /** The counts of a tally add up to the length of the list it was built from. */
  lemma {:induction false} TallySum<T, K(!new)>(s: seq<T>, key: T -> K)
    ensures MapSum(Tally(s, key)) == |s|
    decreases |s|
  {
    if s != [] {
      var init := s[..|s| - 1];
      var k := key(s[|s| - 1]);
      var m := Tally(init, key);
      TallySum(init, key);
      if k in m {
        var m' := m[k := m[k] + 1];
        MapSumRemove(m', k);
        MapSumRemove(m, k);
        assert m' - {k} == m - {k};
      } else {
        var m' := m[k := 1];
        MapSumRemove(m', k);
        assert m' - {k} == m;
      }
    }
  }
}
