/** The array library routines the source relies on — `filter`, `map` and the stable `sort` of
    `Array.prototype` — as functions on sequences, with the facts the rest of the model uses. */
module Seqs {
  import opened Types

  /** The position of the first element satisfying `p`, or `|s|` when there is none. */
  function FindIndex<T>(s: seq<T>, p: T -> bool): (k: nat)
    ensures k <= |s|
    ensures k < |s| ==> p(s[k])
    ensures forall j :: 0 <= j < k ==> !p(s[j])
  {
    if s == [] then 0 else if p(s[0]) then 0 else 1 + FindIndex(s[1..], p)
  }

  /** `s.find(p)`. */
  function Find<T>(s: seq<T>, p: T -> bool): (r: Option<T>)
    ensures r.None? <==> forall i :: 0 <= i < |s| ==> !p(s[i])
    ensures r.Some? ==> p(r.value) && r.value in s
  {
    var k := FindIndex(s, p);
    if k < |s| then Some(s[k]) else None
  }

  /** `find` returns the first match: the element at `i` when nothing before `i` matches. */
  lemma FindFirst<T>(s: seq<T>, p: T -> bool, i: nat)
    requires i < |s| && p(s[i])
    requires forall j :: 0 <= j < i ==> !p(s[j])
    ensures Find(s, p) == Some(s[i])
  {
    var k := FindIndex(s, p);
    assert k <= i;
    assert !(k < i);
  }

  /** `s.filter(p)`: the elements satisfying `p`, in their original order. */
  function Filter<T>(s: seq<T>, p: T -> bool): (r: seq<T>)
    ensures |r| <= |s|
  {
    if s == [] then []
    else
      assert s == [s[0]] + s[1..];
      (if p(s[0]) then [s[0]] else []) + Filter(s[1..], p)
  }

  /** `Filter` keeps exactly the elements satisfying `p`. */
  lemma {:induction false} FilterMembers<T>(s: seq<T>, p: T -> bool)
    ensures forall i :: 0 <= i < |Filter(s, p)| ==> Filter(s, p)[i] in s && p(Filter(s, p)[i])
    ensures forall i :: 0 <= i < |s| && p(s[i]) ==> s[i] in Filter(s, p)
  {
    if s != [] {
      FilterMembers(s[1..], p);
      assert s == [s[0]] + s[1..];
    }
  }

  /** Unfolds one step of `Filter` on a sequence given as head and tail. */
  lemma FilterCons<T>(x: T, s: seq<T>, p: T -> bool)
    ensures Filter([x] + s, p) == (if p(x) then [x] else []) + Filter(s, p)
  {
    assert ([x] + s)[0] == x && ([x] + s)[1..] == s;
  }

  lemma {:induction false} FilterConcat<T>(s: seq<T>, t: seq<T>, p: T -> bool)
    ensures Filter(s + t, p) == Filter(s, p) + Filter(t, p)
  {
    if s == [] {
      assert s + t == t;
    } else {
      assert s + t == [s[0]] + (s[1..] + t);
      assert s == [s[0]] + s[1..];
      FilterCons(s[0], s[1..] + t, p);
      FilterCons(s[0], s[1..], p);
      FilterConcat(s[1..], t, p);
    }
  }

  /** A filter that keeps every element is the identity. */
  lemma {:induction false} FilterKeepsAll<T>(s: seq<T>, p: T -> bool)
    requires forall i :: 0 <= i < |s| ==> p(s[i])
    ensures Filter(s, p) == s
  {
    if s != [] {
      FilterKeepsAll(s[1..], p);
    }
  }

  /** An element the filter keeps lands at its rank: the number of kept elements before it. */
  lemma FilterRank<T>(s: seq<T>, p: T -> bool, m: nat)
    requires m < |s| && p(s[m])
    ensures |Filter(s[..m], p)| < |Filter(s, p)|
    ensures Filter(s, p)[|Filter(s[..m], p)|] == s[m]
  {
    assert s == s[..m] + ([s[m]] + s[m + 1..]);
    FilterConcat(s[..m], [s[m]] + s[m + 1..], p);
    FilterCons(s[m], s[m + 1..], p);
  }

  /** Splitting by a predicate and its negation loses and duplicates nothing. */
  lemma {:induction false} FilterPartition<T>(s: seq<T>, p: T -> bool, q: T -> bool)
    requires forall x :: q(x) == !p(x)
    ensures multiset(Filter(s, p)) + multiset(Filter(s, q)) == multiset(s)
    ensures |Filter(s, p)| + |Filter(s, q)| == |s|
  {
    if s != [] {
      FilterPartition(s[1..], p, q);
      assert s == [s[0]] + s[1..];
    }
  }

  /** `r` is `s` with some elements left out, the rest in their original order. */
  ghost predicate Subsequence<T>(r: seq<T>, s: seq<T>)
    decreases |s|
  {
    r == [] || (s != [] && if r[0] == s[0] then Subsequence(r[1..], s[1..]) else Subsequence(r, s[1..]))
  }

  /** Filtering keeps the relative order of what it keeps. */
  lemma {:induction false} FilterSubsequence<T>(s: seq<T>, p: T -> bool)
    ensures Subsequence(Filter(s, p), s)
  {
    if s != [] {
      FilterSubsequence(s[1..], p);
      var r := Filter(s, p);
      if p(s[0]) {
        assert r == [s[0]] + Filter(s[1..], p);
        assert r[1..] == Filter(s[1..], p);
      } else {
        assert r == Filter(s[1..], p);
        FilterMembers(s[1..], p);
        assert r != [] ==> r[0] != s[0];
      }
    }
  }

  /** Distinct images stay distinct in the tail, and the head's image is not among them. */
  lemma DistinctMapTail<T, U>(s: seq<T>, f: T -> U)
    requires s != [] && Distinct(Map(s, f))
    ensures Distinct(Map(s[1..], f))
    ensures forall y :: y in s[1..] ==> f(y) != f(s[0])
  {
    var m := Map(s, f);
    forall i, j | 0 <= i < j < |s| - 1 ensures Map(s[1..], f)[i] != Map(s[1..], f)[j] {
      assert m[i + 1] != m[j + 1];
    }
    forall y | y in s[1..] ensures f(y) != f(s[0]) {
      var k :| 0 <= k < |s| - 1 && s[1..][k] == y;
      assert m[0] != m[k + 1];
    }
  }

  /** Putting an element whose image is new in front keeps the images distinct. */
  lemma DistinctMapCons<T, U>(x: T, w: seq<T>, f: T -> U)
    requires Distinct(Map(w, f))
    requires forall y :: y in w ==> f(y) != f(x)
    ensures Distinct(Map([x] + w, f))
  {
    var r := [x] + w;
    forall i, j | 0 <= i < j < |r| ensures Map(r, f)[i] != Map(r, f)[j] {
      assert r[j] == w[j - 1];
      if i > 0 {
        assert r[i] == w[i - 1];
        assert Map(w, f)[i - 1] != Map(w, f)[j - 1];
      }
    }
  }

  /** Filtering a sequence whose images under `f` are distinct keeps them distinct. */
  lemma {:induction false} FilterKeepsDistinct<T, U>(s: seq<T>, p: T -> bool, f: T -> U)
    requires Distinct(Map(s, f))
    ensures Distinct(Map(Filter(s, p), f))
  {
    if s != [] {
      var t := s[1..];
      DistinctMapTail(s, f);
      FilterKeepsDistinct(t, p, f);
      assert s == [s[0]] + t;
      FilterCons(s[0], t, p);
      if p(s[0]) {
        FilterMembers(t, p);
        DistinctMapCons(s[0], Filter(t, p), f);
      }
    }
  }

  /** `s.map(f)`. */
  function Map<T, U>(s: seq<T>, f: T -> U): (r: seq<U>)
    ensures |r| == |s|
    ensures forall i :: 0 <= i < |s| ==> r[i] == f(s[i])
  {
    if s == [] then [] else [f(s[0])] + Map(s[1..], f)
  }

  lemma {:induction false} MapConcat<T, U>(s: seq<T>, t: seq<T>, f: T -> U)
    ensures Map(s + t, f) == Map(s, f) + Map(t, f)
  {
    assert |Map(s + t, f)| == |Map(s, f) + Map(t, f)|;
    forall i | 0 <= i < |s + t|
      ensures Map(s + t, f)[i] == (Map(s, f) + Map(t, f))[i]
    {
      if i < |s| { assert (s + t)[i] == s[i]; } else { assert (s + t)[i] == t[i - |s|]; }
    }
  }

  /** Filtering after a map that only changes elements the filter drops, and keeps them dropped,
      is filtering alone. */
  lemma {:induction false} FilterAfterMap<T>(s: seq<T>, f: T -> T, p: T -> bool)
    requires forall i :: 0 <= i < |s| ==> if p(s[i]) then f(s[i]) == s[i] else !p(f(s[i]))
    ensures Filter(Map(s, f), p) == Filter(s, p)
  {
    if s != [] {
      FilterAfterMap(s[1..], f, p);
      assert Map(s, f) == [f(s[0])] + Map(s[1..], f);
      FilterCons(f(s[0]), Map(s[1..], f), p);
    }
  }

  /** Removing the element at `i` removes its image from the mapped multiset. */
  lemma MapRemoveAt<T, U>(b: seq<T>, i: nat, f: T -> U)
    requires i < |b|
    ensures multiset(Map(b, f)) == multiset(Map(b[..i] + b[i + 1..], f)) + multiset{f(b[i])}
  {
    var l, r := b[..i], b[i + 1..];
    SplitAt(b, i);
    MapMiddle(l, b[i], r, f);
    MapConcat(l, r, f);
  }

  lemma SplitAt<T>(b: seq<T>, i: nat)
    requires i < |b|
    ensures b == b[..i] + ([b[i]] + b[i + 1..])
  {
  }

  /** The image of `l + [x] + r` is the images of `l`, `x` and `r`, multisets of them too. */
  lemma MapMiddle<T, U>(l: seq<T>, x: T, r: seq<T>, f: T -> U)
    ensures multiset(Map(l + ([x] + r), f)) == multiset(Map(l, f)) + multiset{f(x)} + multiset(Map(r, f))
  {
    MapConcat(l, [x] + r, f);
    MapConcat([x], r, f);
    assert Map([x], f) == [f(x)];
    var ml, mr := Map(l, f), Map(r, f);
    assert Map(l + ([x] + r), f) == ml + ([f(x)] + mr);
  }

  /** Removing the first of `a` and a matching element of `b` keeps two permutations permutations. */
  lemma RemovePreserves<T>(a: seq<T>, b: seq<T>, i: nat)
    requires multiset(a) == multiset(b) && 0 < |a| && i < |b| && b[i] == a[0]
    ensures multiset(a[1..]) == multiset(b[..i] + b[i + 1..])
  {
    RemoveAtMultiset(b, i);
    DropFirstMultiset(a);
  }

  lemma DropFirstMultiset<T>(a: seq<T>)
    requires 0 < |a|
    ensures multiset(a[1..]) == multiset(a) - multiset{a[0]}
  {
    assert a == [a[0]] + a[1..];
  }

  /** A position of an element of the multiset of `b`. */
  lemma IndexOf<T>(b: seq<T>, x: T) returns (i: nat)
    requires x in multiset(b)
    ensures i < |b| && b[i] == x
  {
    assert x in b;
    i :| 0 <= i < |b| && b[i] == x;
  }

  /** Removing the element at `i` removes one occurrence of it from the multiset. */
  lemma RemoveAtMultiset<T>(b: seq<T>, i: nat)
    requires i < |b|
    ensures multiset(b[..i] + b[i + 1..]) == multiset(b) - multiset{b[i]}
  {
    assert b == b[..i] + [b[i]] + b[i + 1..];
  }

  /** Mapping a permutation gives a permutation. */
  lemma {:induction false} MapPermutation<T, U>(a: seq<T>, b: seq<T>, f: T -> U)
    requires multiset(a) == multiset(b)
    ensures multiset(Map(a, f)) == multiset(Map(b, f))
  {
    if a == [] {
      assert |b| == |multiset(b)| == 0;
    } else {
      var i := IndexOf(b, a[0]);
      var b' := b[..i] + b[i + 1..];
      RemovePreserves(a, b, i);
      MapPermutation(a[1..], b', f);
      MapRemoveAt(b, i, f);
      MapRemoveAt(a, 0, f);
    }
  }

  predicate Distinct<T(==)>(s: seq<T>) {
    forall i, j :: 0 <= i < j < |s| ==> s[i] != s[j]
  }

  /** In a sequence without repetitions every member occurs exactly once. */
  lemma {:induction false} DistinctMultiplicity<T>(s: seq<T>, x: T)
    requires Distinct(s)
    ensures multiset(s)[x] == if x in s then 1 else 0
  {
    if s != [] {
      assert s == [s[0]] + s[1..];
      assert Distinct(s[1..]);
      assert s[0] !in s[1..];
      DistinctMultiplicity(s[1..], x);
    }
  }

  /** Two sequences without repetitions and with the same members are permutations of each other. */
  lemma DistinctSameMembers<T>(a: seq<T>, b: seq<T>)
    requires Distinct(a) && Distinct(b)
    requires forall x :: x in a <==> x in b
    ensures multiset(a) == multiset(b)
  {
    forall x ensures multiset(a)[x] == multiset(b)[x] {
      DistinctMultiplicity(a, x);
      DistinctMultiplicity(b, x);
    }
  }

  // --- The stable sort of Array.prototype.sort ---

  predicate SortedBy<T>(s: seq<T>, key: T -> real) {
    forall i, j :: 0 <= i < j < |s| ==> key(s[i]) <= key(s[j])
  }

  predicate StrictlySortedBy<T>(s: seq<T>, key: T -> real) {
    forall i, j :: 0 <= i < j < |s| ==> key(s[i]) < key(s[j])
  }

  /** Places `x` in front of the first element whose key is not below its own. */
  function InsertBy<T>(s: seq<T>, x: T, key: T -> real): (r: seq<T>)
    ensures multiset(r) == multiset{x} + multiset(s)
    ensures |r| == |s| + 1
  {
    if s == [] then [x]
    else if key(x) <= key(s[0]) then [x] + s
    else
      assert s == [s[0]] + s[1..];
      [s[0]] + InsertBy(s[1..], x, key)
  }

  lemma {:induction false} InsertBySorted<T>(s: seq<T>, x: T, key: T -> real)
    requires SortedBy(s, key)
    ensures SortedBy(InsertBy(s, x, key), key)
  {
    if s != [] && key(s[0]) < key(x) {
      var rest := InsertBy(s[1..], x, key);
      InsertBySorted(s[1..], x, key);
      forall j | 0 <= j < |rest| ensures key(s[0]) <= key(rest[j]) {
        assert rest[j] in multiset(rest);
        assert rest[j] == x || rest[j] in multiset(s[1..]);
        if rest[j] != x {
          var k :| 0 <= k < |s[1..]| && s[1..][k] == rest[j];
          assert s[k + 1] == rest[j];
        }
      }
    }
  }

  /** Insertion sort: the stable sort `arr.sort((a, b) => key(a) - key(b))`. */
  function SortBy<T>(s: seq<T>, key: T -> real): (r: seq<T>)
    ensures multiset(r) == multiset(s)
    ensures |r| == |s|
  {
    if s == [] then []
    else
      assert s == [s[0]] + s[1..];
      InsertBy(SortBy(s[1..], key), s[0], key)
  }

  lemma {:induction false} SortBySorted<T>(s: seq<T>, key: T -> real)
    ensures SortedBy(SortBy(s, key), key)
  {
    if s != [] {
      SortBySorted(s[1..], key);
      InsertBySorted(SortBy(s[1..], key), s[0], key);
    }
  }

  /** The elements whose key equals `k`. */
  function KeyIs<T>(key: T -> real, k: real): T -> bool {
    x => key(x) == k
  }

  lemma {:induction false} InsertByStable<T>(s: seq<T>, x: T, key: T -> real, k: real)
    ensures Filter(InsertBy(s, x, key), KeyIs(key, k))
         == (if key(x) == k then [x] else []) + Filter(s, KeyIs(key, k))
  {
    var p := KeyIs(key, k);
    assert p(x) == (key(x) == k);
    if s == [] {
      FilterCons(x, [], p);
    } else if key(x) <= key(s[0]) {
      assert InsertBy(s, x, key) == [x] + s;
      FilterCons(x, s, p);
    } else {
      var r := InsertBy(s[1..], x, key);
      assert InsertBy(s, x, key) == [s[0]] + r;
      InsertByStable(s[1..], x, key, k);
      assert Filter(r, p) == (if p(x) then [x] else []) + Filter(s[1..], p);
      assert s == [s[0]] + s[1..];
      FilterCons(s[0], r, p);
      FilterCons(s[0], s[1..], p);
      assert p(s[0]) == (key(s[0]) == k);
      if p(x) {
        assert !p(s[0]);
        assert Filter([s[0]] + r, p) == Filter(r, p);
        assert Filter(s, p) == Filter(s[1..], p);
      } else {
        assert Filter(r, p) == Filter(s[1..], p);
      }
    }
  }

  /** Stability: among elements with equal keys the sort keeps the original order. */
  lemma {:induction false} SortByStable<T>(s: seq<T>, key: T -> real, k: real)
    ensures Filter(SortBy(s, key), KeyIs(key, k)) == Filter(s, KeyIs(key, k))
  {
    if s != [] {
      SortByStable(s[1..], key, k);
      InsertByStable(SortBy(s[1..], key), s[0], key, k);
    }
  }

  /** With pairwise different keys there is only one sorted order. */
  lemma {:induction false} SortedUnique<T>(a: seq<T>, b: seq<T>, key: T -> real)
    requires multiset(a) == multiset(b)
    requires StrictlySortedBy(a, key) && SortedBy(b, key)
    ensures a == b
  {
    if a == [] {
      assert |b| == |multiset(b)| == 0;
    } else {
      assert |b| == |multiset(b)| == |a|;
      var i := IndexOf(b, a[0]);
      var j := IndexOf(a, b[0]);
      assert key(b[0]) <= key(b[i]);
      assert j == 0;
      TailsPermute(a, b);
      SortedTail(a, b, key);
      SortedUnique(a[1..], b[1..], key);
      HeadTail(a, b);
    }
  }

  /** Permutations with the same head have permuted tails. */
  lemma TailsPermute<T>(a: seq<T>, b: seq<T>)
    requires multiset(a) == multiset(b) && 0 < |a| && 0 < |b| && a[0] == b[0]
    ensures multiset(a[1..]) == multiset(b[1..])
  {
    RemovePreserves(a, b, 0);
    assert b[..0] + b[1..] == b[1..];
  }

  /** Dropping the first element keeps both orders. */
  lemma SortedTail<T>(a: seq<T>, b: seq<T>, key: T -> real)
    requires StrictlySortedBy(a, key) && SortedBy(b, key) && 0 < |a| && 0 < |b|
    ensures StrictlySortedBy(a[1..], key) && SortedBy(b[1..], key)
  {
    forall i, j | 0 <= i < j < |a| - 1 ensures key(a[1..][i]) < key(a[1..][j]) {
      assert a[1..][i] == a[i + 1] && a[1..][j] == a[j + 1];
    }
    forall i, j | 0 <= i < j < |b| - 1 ensures key(b[1..][i]) <= key(b[1..][j]) {
      assert b[1..][i] == b[i + 1] && b[1..][j] == b[j + 1];
    }
  }

  /** Sequences with equal heads and equal tails are equal. */
  lemma HeadTail<T>(a: seq<T>, b: seq<T>)
    requires 0 < |a| && 0 < |b| && a[0] == b[0] && a[1..] == b[1..]
    ensures a == b
  {
    assert a == [a[0]] + a[1..] && b == [b[0]] + b[1..];
  }

  /** The sort of a strictly ordered permutation is that permutation. */
  lemma SortByUnique<T>(s: seq<T>, a: seq<T>, key: T -> real)
    requires multiset(a) == multiset(s) && StrictlySortedBy(a, key)
    ensures SortBy(s, key) == a
  {
    SortBySorted(s, key);
    SortedUnique(a, SortBy(s, key), key);
  }
}
