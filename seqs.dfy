// Order-preserving filters and sums, shared by the record-keeping modules
// (`iter().filter(..).collect()`, `iter().map(..).sum()`).

module Seqs {
  import opened Wrappers

  /** The elements of s satisfying p, in their original order. Defined from
      the back so that a loop pushing onto a Vec follows it step by step. */
  function Filter<T>(s: seq<T>, p: T -> bool): (r: seq<T>)
    ensures |r| <= |s|
    decreases |s|
  {
    if s == [] then []
    else Filter(s[..|s| - 1], p) + (if p(s[|s| - 1]) then [s[|s| - 1]] else [])
  }

  /** Every element Filter keeps satisfies the predicate. */
  lemma {:induction false} FilterSatisfies<T>(s: seq<T>, p: T -> bool)
    ensures forall i | 0 <= i < |Filter(s, p)| :: p(Filter(s, p)[i])
    decreases |s|
  {
    if s != [] {
      FilterSatisfies(s[..|s| - 1], p);
    }
  }

  /** The complement of a predicate. */
  function Not<T>(p: T -> bool): T -> bool
  {
    x => !p(x)
  }

  /** One more element at the end is filtered on its own. */
  lemma FilterSnoc<T>(s: seq<T>, x: T, p: T -> bool)
    ensures Filter(s + [x], p) == Filter(s, p) + (if p(x) then [x] else [])
  {
    assert (s + [x])[..|s + [x]| - 1] == s;
  }

  /** The filter of a two-element list, element by element. */
  lemma FilterPair<T>(a: T, b: T, p: T -> bool)
    ensures Filter([a, b], p) == (if p(a) then [a] else []) + (if p(b) then [b] else [])
  {
    assert [a, b][..1] == [a];
    assert [a][..0] == [];
  }

  /** The filter of a three-element list, element by element. */
  lemma FilterOfThree<T>(a: T, b: T, c: T, p: T -> bool)
    ensures Filter([a, b, c], p) ==
      (if p(a) then [a] else []) + (if p(b) then [b] else []) + (if p(c) then [c] else [])
  {
    assert [a, b, c] == [a, b] + [c];
    assert [a, b] == [a] + [b];
    assert [a] == [] + [a];
    FilterSnoc([], a, p);
    FilterSnoc([a], b, p);
    FilterSnoc([a, b], c, p);
  }

  /** A filter of a concatenation is the concatenation of the filters. */
  lemma {:induction false} FilterAppend<T>(a: seq<T>, b: seq<T>, p: T -> bool)
    ensures Filter(a + b, p) == Filter(a, p) + Filter(b, p)
    decreases |b|
  {
    if b == [] {
      assert a + b == a;
    } else {
      var b' := b[..|b| - 1];
      var x := b[|b| - 1];
      assert b == b' + [x];
      assert a + b == (a + b') + [x];
      FilterSnoc(a + b', x, p);
      FilterAppend(a, b', p);
      FilterSnoc(b', x, p);
    }
  }

  /** One more element at the front is filtered on its own. */
  lemma FilterCons<T>(x: T, s: seq<T>, p: T -> bool)
    ensures Filter([x] + s, p) == (if p(x) then [x] else []) + Filter(s, p)
  {
    var single := [x];
    assert single[..0] == [];
    assert Filter(single, p) == (if p(x) then [x] else []);
    FilterAppend(single, s, p);
  }

  /** Putting x in front of two lists, the filter of one extending that
      of the other, keeps the extension. */
  lemma FilterConsExtends<T>(x: T, tail: seq<T>, rest: seq<T>, extra: seq<T>, p: T -> bool)
    requires Filter(rest, p) == Filter(tail, p) + extra
    ensures Filter([x] + rest, p) == Filter([x] + tail, p) + extra
  {
    var head := if p(x) then [x] else [];
    FilterCons(x, rest, p);
    FilterCons(x, tail, p);
    AppendAssoc(head, Filter(tail, p), extra);
  }

  lemma AppendAssoc<T>(a: seq<T>, b: seq<T>, c: seq<T>)
    ensures a + (b + c) == (a + b) + c
  {
  }

  /** An element is kept exactly when it occurs and satisfies p. */
  lemma {:induction false} FilterMembers<T>(s: seq<T>, p: T -> bool, x: T)
    ensures x in Filter(s, p) <==> x in s && p(x)
    decreases |s|
  {
    if s != [] {
      var s' := s[..|s| - 1];
      assert s == s' + [s[|s| - 1]];
      FilterMembers(s', p, x);
    }
  }

  /** The kept elements, for every element at once. */
  lemma FilterMembersAll<T>(s: seq<T>, p: T -> bool)
    ensures forall x :: x in Filter(s, p) <==> x in s && p(x)
  {
    forall x
      ensures x in Filter(s, p) <==> x in s && p(x)
    {
      FilterMembers(s, p, x);
    }
  }

  /** Filtering by p and by its negation splits s: the two parts together
      have the length and the elements of s. */
  lemma {:induction false} FilterPartition<T>(s: seq<T>, p: T -> bool)
    ensures |Filter(s, p)| + |Filter(s, Not(p))| == |s|
    ensures multiset(Filter(s, p)) + multiset(Filter(s, Not(p))) == multiset(s)
    decreases |s|
  {
    if s != [] {
      var s' := s[..|s| - 1];
      assert s == s' + [s[|s| - 1]];
      FilterPartition(s', p);
    }
  }

  /** A filter that keeps everything is the identity. */
  lemma {:induction false} FilterAll<T>(s: seq<T>, p: T -> bool)
    requires forall i | 0 <= i < |s| :: p(s[i])
    ensures Filter(s, p) == s
    decreases |s|
  {
    if s != [] {
      var s' := s[..|s| - 1];
      assert s == s' + [s[|s| - 1]];
      FilterAll(s', p);
    }
  }

  /** A filter that keeps nothing is empty. */
  lemma {:induction false} FilterNone<T>(s: seq<T>, p: T -> bool)
    requires forall i | 0 <= i < |s| :: !p(s[i])
    ensures Filter(s, p) == []
    decreases |s|
  {
    if s != [] {
      FilterNone(s[..|s| - 1], p);
    }
  }

  /** The filter keeps every element exactly when p holds throughout, and
      none exactly when p holds nowhere. */
  lemma {:induction false} FilterKeepsAll<T>(s: seq<T>, p: T -> bool)
    ensures |Filter(s, p)| == |s| <==> forall i | 0 <= i < |s| :: p(s[i])
    ensures Filter(s, p) == [] <==> forall i | 0 <= i < |s| :: !p(s[i])
    decreases |s|
  {
    if s != [] {
      var s' := s[..|s| - 1];
      assert s == s' + [s[|s| - 1]];
      FilterKeepsAll(s', p);
      if Filter(s, p) == [] {
        forall i | 0 <= i < |s|
          ensures !p(s[i])
        {
          FilterMembers(s, p, s[i]);
        }
      }
    }
  }

  /** The position of the first element satisfying p, if there is one
      (`iter().position`, `find`). */
  function FirstIndex<T>(s: seq<T>, p: T -> bool): (r: Option<nat>)
    ensures r.Some? ==> r.value < |s| && p(s[r.value]) && forall k | 0 <= k < r.value :: !p(s[k])
    ensures r.None? ==> forall k | 0 <= k < |s| :: !p(s[k])
    decreases |s|
  {
    if s == [] then None
    else if p(s[0]) then Some(0)
    else
      match FirstIndex(s[1..], p)
      case None => None
      case Some(i) => Some(i + 1)
  }

  /** The first position satisfying p is the one FirstIndex finds. */
  lemma FirstIndexAt<T>(s: seq<T>, p: T -> bool, i: nat)
    requires i < |s| && p(s[i]) && forall k | 0 <= k < i :: !p(s[k])
    ensures FirstIndex(s, p) == Some(i)
  {
  }

  /** The elements at pairwise different positions differ. */
  predicate Distinct<T(==)>(s: seq<T>)
  {
    forall i, j | 0 <= i < j < |s| :: s[i] != s[j]
  }

  /** The set of the elements of s. */
  function Elements<T>(s: seq<T>): set<T>
  {
    set x | x in s
  }

  /** A repetition-free sequence has as many elements as its set. */
  lemma {:induction false} DistinctElements<T>(s: seq<T>)
    requires Distinct(s)
    ensures |Elements(s)| == |s|
    decreases |s|
  {
    if s != [] {
      var n := |s| - 1;
      var p := s[..n];
      assert Distinct(p);
      DistinctElements(p);
      assert Elements(s) == Elements(p) + {s[n]} by {
        assert s == p + [s[n]];
      }
      assert s[n] !in Elements(p);
    }
  }

  /** The sum of f over the elements of s. */
  function SumOf<T>(s: seq<T>, f: T -> nat): (r: nat)
    ensures s == [] ==> r == 0
    decreases |s|
  {
    if s == [] then 0 else SumOf(s[..|s| - 1], f) + f(s[|s| - 1])
  }

  lemma SumOfSnoc<T>(s: seq<T>, x: T, f: T -> nat)
    ensures SumOf(s + [x], f) == SumOf(s, f) + f(x)
  {
    assert (s + [x])[..|s + [x]| - 1] == s;
  }

  /** Replacing one element changes the sum by the difference of the two
      terms. */
  lemma {:induction false} SumOfUpdate<T>(s: seq<T>, i: nat, x: T, f: T -> nat)
    requires i < |s|
    ensures SumOf(s[i := x], f) + f(s[i]) == SumOf(s, f) + f(x)
    decreases |s|
  {
    var t := s[i := x];
    assert t[..|t| - 1] == if i == |s| - 1 then s[..|s| - 1] else s[..|s| - 1][i := x];
    if i < |s| - 1 {
      SumOfUpdate(s[..|s| - 1], i, x, f);
    }
  }

  /** The sum of a real-valued f over the elements of s. */
  function RealSumOf<T>(s: seq<T>, f: T -> real): (r: real)
    ensures s == [] ==> r == 0.0
    decreases |s|
  {
    if s == [] then 0.0 else RealSumOf(s[..|s| - 1], f) + f(s[|s| - 1])
  }

  lemma RealSumOfSnoc<T>(s: seq<T>, x: T, f: T -> real)
    ensures RealSumOf(s + [x], f) == RealSumOf(s, f) + f(x)
  {
    assert (s + [x])[..|s + [x]| - 1] == s;
  }

  /** Replacing one element changes the real sum by the difference of the
      two terms. */
  lemma {:induction false} RealSumOfUpdate<T>(s: seq<T>, i: nat, x: T, f: T -> real)
    requires i < |s|
    ensures RealSumOf(s[i := x], f) == RealSumOf(s, f) - f(s[i]) + f(x)
    decreases |s|
  {
    var t := s[i := x];
    assert t[..|t| - 1] == if i == |s| - 1 then s[..|s| - 1] else s[..|s| - 1][i := x];
    if i < |s| - 1 {
      RealSumOfUpdate(s[..|s| - 1], i, x, f);
    }
  }

  /** Replacing one element changes the number kept by the filter by what
      the old and the new element contribute. */
  lemma {:induction false} FilterUpdate<T>(s: seq<T>, i: nat, x: T, p: T -> bool)
    requires i < |s|
    ensures |Filter(s[i := x], p)| + (if p(s[i]) then 1 else 0) == |Filter(s, p)| + (if p(x) then 1 else 0)
    decreases |s|
  {
    var t := s[i := x];
    assert t[..|t| - 1] == if i == |s| - 1 then s[..|s| - 1] else s[..|s| - 1][i := x];
    if i < |s| - 1 {
      FilterUpdate(s[..|s| - 1], i, x, p);
    }
  }

  /** Where every element contributes at most one, the sum is at most the
      length. */
  lemma {:induction false} SumOfAtMostLength<T>(s: seq<T>, f: T -> nat)
    requires forall i | 0 <= i < |s| :: f(s[i]) <= 1
    ensures SumOf(s, f) <= |s|
    decreases |s|
  {
    if s != [] {
      SumOfAtMostLength(s[..|s| - 1], f);
    }
  }

  /** Removing one key of a map leaves one key fewer. */
  lemma MapRemoveSize<K, V>(m: map<K, V>, k: K)
    requires k in m
    ensures |m - {k}| == |m| - 1
  {
    assert (m - {k}).Keys == m.Keys - {k};
  }

  /** The sum of f over the values of a map, one term per key; a sum does
      not depend on the order in which a `HashMap` yields its values. */
  ghost function MapSum<K, V>(m: map<K, V>, f: V -> nat): nat
    decreases |m|
  {
    if m == map[] then 0
    else
      var k :| k in m;
      MapRemoveSize(m, k);
      f(m[k]) + MapSum(m - {k}, f)
  }

  /** Any key may be taken first. */
  lemma {:induction false} MapSumPick<K, V>(m: map<K, V>, f: V -> nat, k: K)
    requires k in m
    ensures MapSum(m, f) == f(m[k]) + MapSum(m - {k}, f)
    decreases |m|
  {
    var j :| j in m && MapSum(m, f) == f(m[j]) + MapSum(m - {j}, f);
    if j != k {
      MapRemoveSize(m, j);
      MapRemoveSize(m, k);
      MapSumPick(m - {j}, f, k);
      MapSumPick(m - {k}, f, j);
      assert (m - {j}) - {k} == (m - {k}) - {j};
    }
  }

  /** Writing a key changes the sum by the difference of the two values. */
  lemma MapSumUpdate<K, V>(m: map<K, V>, f: V -> nat, k: K, v: V)
    ensures k in m ==> MapSum(m[k := v], f) + f(m[k]) == MapSum(m, f) + f(v)
    ensures k !in m ==> MapSum(m[k := v], f) == MapSum(m, f) + f(v)
  {
    MapSumPick(m[k := v], f, k);
    assert m[k := v] - {k} == m - {k};
    if k in m {
      MapSumPick(m, f, k);
    } else {
      assert m - {k} == m;
    }
  }

  /** A loop over the keys of a `HashMap` or `HashSet`, in an order the
      model leaves open, that pushes the item f(k) for every key that has
      one; `key` recovers the key from an item. */
  method CollectByKey<K, D>(keys: set<K>, f: K -> Option<D>, key: D -> K) returns (r: seq<D>)
    requires forall k | k in keys && f(k).Some? :: key(f(k).value) == k
    ensures forall i | 0 <= i < |r| :: key(r[i]) in keys && f(key(r[i])) == Some(r[i])
    ensures forall i, j | 0 <= i < j < |r| :: key(r[i]) != key(r[j])
    ensures forall k | k in keys && f(k).Some? :: exists i | 0 <= i < |r| :: key(r[i]) == k
  {
    r := [];
    var todo := keys;
    while todo != {}
      invariant todo <= keys
      invariant forall i | 0 <= i < |r| :: key(r[i]) in keys - todo && f(key(r[i])) == Some(r[i])
      invariant forall i, j | 0 <= i < j < |r| :: key(r[i]) != key(r[j])
      invariant forall k | k in keys - todo && f(k).Some? :: exists i | 0 <= i < |r| :: key(r[i]) == k
      decreases |todo|
    {
      var k :| k in todo;
      ghost var r0 := r;
      match f(k) {
        case Some(d) =>
          r := r + [d];
          assert key(r[|r| - 1]) == k;
        case None =>
      }
      assert forall i | 0 <= i < |r0| :: r[i] == r0[i];
      forall k' | k' in keys - (todo - {k}) && f(k').Some?
        ensures exists i | 0 <= i < |r| :: key(r[i]) == k'
      {
        if k' == k {
          assert key(r[|r| - 1]) == k';
        } else {
          var i :| 0 <= i < |r0| && key(r0[i]) == k';
          assert key(r[i]) == k';
        }
      }
      todo := todo - {k};
    }
  }

  /** A sum of naturals is zero exactly when every term is. */
  lemma {:induction false} SumOfZero<T>(s: seq<T>, f: T -> nat)
    ensures SumOf(s, f) == 0 <==> forall i | 0 <= i < |s| :: f(s[i]) == 0
    decreases |s|
  {
    if s != [] {
      SumOfZero(s[..|s| - 1], f);
      assert forall i | 0 <= i < |s| - 1 :: s[..|s| - 1][i] == s[i];
    }
  }

  /** A map sum of naturals is zero exactly when every term is. */
  lemma {:induction false} MapSumZero<K, V>(m: map<K, V>, f: V -> nat)
    ensures MapSum(m, f) == 0 <==> forall k | k in m :: f(m[k]) == 0
    decreases |m|
  {
    if m != map[] {
      var k :| k in m;
      MapSumPick(m, f, k);
      MapRemoveSize(m, k);
      MapSumZero(m - {k}, f);
      assert forall j | j in m - {k} :: (m - {k})[j] == m[j];
    }
  }

  /** `map.values().map(f).sum()`: the values added up in an order the
      model leaves open. */
  method SumValues<K, V>(m: map<K, V>, f: V -> nat) returns (total: nat)
    ensures total == MapSum(m, f)
  {
    total := 0;
    var todo := m.Keys;
    assert (map k | k in todo :: m[k]) == m;
    while todo != {}
      invariant todo <= m.Keys
      invariant total + MapSum(map k | k in todo :: m[k], f) == MapSum(m, f)
      decreases |todo|
    {
      var k :| k in todo;
      var rest := map j | j in todo :: m[j];
      MapSumPick(rest, f, k);
      assert rest - {k} == map j | j in todo - {k} :: m[j];
      total := total + f(m[k]);
      todo := todo - {k};
    }
  }
}
