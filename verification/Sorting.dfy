/** Stable sorting by a total preorder (what Python's `sorted` promises), permutations, and sums. */
module Sorting {

  ghost predicate TotalPreorder<T(!new)>(leq: (T, T) -> bool) {
    && (forall a, b :: leq(a, b) || leq(b, a))
    && (forall a, b, c :: leq(a, b) && leq(b, c) ==> leq(a, c))
  }

  ghost predicate Antisymmetric<T(!new)>(leq: (T, T) -> bool) {
    forall a, b :: leq(a, b) && leq(b, a) ==> a == b
  }

  ghost predicate Sorted<T>(leq: (T, T) -> bool, s: seq<T>) {
    forall i, j :: 0 <= i < j < |s| ==> leq(s[i], s[j])
  }

  /** Sorted by `leq`, and elements that `leq` cannot separate stay ordered by `tie`. */
  ghost predicate StablySorted<T>(leq: (T, T) -> bool, tie: (T, T) -> bool, s: seq<T>) {
    forall i, j :: 0 <= i < j < |s| ==> leq(s[i], s[j]) && (leq(s[j], s[i]) ==> tie(s[i], s[j]))
  }

  ghost predicate Distinct<T(!new)>(s: seq<T>) {
    forall i, j :: 0 <= i < j < |s| ==> s[i] != s[j]
  }

  lemma Through<T>(x: T, y: T, z: T)
    requires x == y && y == z
    ensures x == z
  {
  }

  lemma TakeTake<T>(s: seq<T>, m: nat, n: nat)
    requires n <= m <= |s|
    ensures s[..m][..n] == s[..n]
  {
  }

  lemma TakeAll<T>(s: seq<T>)
    ensures s[..|s|] == s
  {
  }

  lemma TakeSnoc<T>(s: seq<T>, i: nat)
    requires i < |s|
    ensures s[..i + 1] == s[..i] + [s[i]]
  {
  }

  ghost function Elements<T(!new)>(s: seq<T>): set<T> {
    set x | x in s
  }

  function Insert<T>(leq: (T, T) -> bool, x: T, s: seq<T>): seq<T> {
    if s == [] || leq(x, s[0]) then [x] + s else [s[0]] + Insert(leq, x, s[1..])
  }

  function Sort<T>(leq: (T, T) -> bool, s: seq<T>): seq<T> {
    if s == [] then [] else Insert(leq, s[0], Sort(leq, s[1..]))
  }

  lemma {:induction false} InsertPermutes<T>(leq: (T, T) -> bool, x: T, s: seq<T>)
    ensures multiset(Insert(leq, x, s)) == multiset{x} + multiset(s)
  {
    if s == [] || leq(x, s[0]) {
    } else {
      InsertPermutes(leq, x, s[1..]);
      assert s == [s[0]] + s[1..];
    }
  }

  lemma {:induction false} SortPermutes<T>(leq: (T, T) -> bool, s: seq<T>)
    ensures multiset(Sort(leq, s)) == multiset(s)
    ensures |Sort(leq, s)| == |s|
    ensures forall x :: x in Sort(leq, s) <==> x in s
  {
    if s != [] {
      SortPermutes(leq, s[1..]);
      InsertPermutes(leq, s[0], Sort(leq, s[1..]));
      assert s == [s[0]] + s[1..];
    }
    var r := Sort(leq, s);
    assert |multiset(r)| == |r| && |multiset(s)| == |s|;
    assert forall x :: x in r <==> x in multiset(r);
    assert forall x :: x in s <==> x in multiset(s);
  }

  lemma {:induction false} InsertStable<T(!new)>(leq: (T, T) -> bool, tie: (T, T) -> bool, x: T, s: seq<T>)
    requires TotalPreorder(leq) && StablySorted(leq, tie, s)
    requires forall y :: y in s ==> tie(x, y)
    ensures StablySorted(leq, tie, Insert(leq, x, s))
  {
    if s == [] {
    } else if leq(x, s[0]) {
      var r := [x] + s;
      forall j | 0 < j < |r| ensures leq(x, r[j]) && tie(x, r[j]) {
        assert r[j] == s[j - 1] && s[j - 1] in s;
      }
    } else {
      var t := Insert(leq, x, s[1..]);
      InsertStable(leq, tie, x, s[1..]);
      InsertPermutes(leq, x, s[1..]);
      forall j | 0 <= j < |t| ensures leq(s[0], t[j]) && (leq(t[j], s[0]) ==> tie(s[0], t[j])) {
        assert t[j] in multiset(t);
        assert t[j] == x || t[j] in s[1..];
        if t[j] != x {
          var k :| 0 <= k < |s[1..]| && s[1..][k] == t[j];
          assert s[k + 1] == t[j];
        }
      }
    }
  }

  /** Stability: an input ordered by `tie` keeps that order among elements equal under `leq`. */
  lemma {:induction false} SortIsStable<T(!new)>(leq: (T, T) -> bool, tie: (T, T) -> bool, s: seq<T>)
    requires TotalPreorder(leq) && Sorted(tie, s)
    ensures StablySorted(leq, tie, Sort(leq, s))
  {
    if s != [] {
      assert Sorted(tie, s[1..]);
      SortIsStable(leq, tie, s[1..]);
      SortPermutes(leq, s[1..]);
      forall y | y in Sort(leq, s[1..]) ensures tie(s[0], y) {
        var k :| 0 <= k < |s[1..]| && s[1..][k] == y;
        assert s[k + 1] == y;
      }
      InsertStable(leq, tie, s[0], Sort(leq, s[1..]));
    }
  }

  lemma SortSorts<T(!new)>(leq: (T, T) -> bool, s: seq<T>)
    requires TotalPreorder(leq)
    ensures Sorted(leq, Sort(leq, s))
  {
    var any := (a: T, b: T) => true;
    SortIsStable(leq, any, s);
  }

  lemma MultisetTail<T>(s: seq<T>)
    requires s != []
    ensures multiset(s[1..]) == multiset(s) - multiset{s[0]}
  {
    assert s == [s[0]] + s[1..];
  }

  lemma MultisetRemove<T>(s: seq<T>, j: nat)
    requires j < |s|
    ensures multiset(s[..j] + s[j + 1..]) == multiset(s) - multiset{s[j]}
  {
    assert s == s[..j] + [s[j]] + s[j + 1..];
  }

  lemma MultisetLength<T>(a: seq<T>, b: seq<T>)
    requires multiset(a) == multiset(b)
    ensures |a| == |b| && forall x :: x in a <==> x in b
  {
    assert |multiset(a)| == |a| && |multiset(b)| == |b|;
    assert forall x :: x in a <==> x in multiset(a);
    assert forall x :: x in b <==> x in multiset(b);
  }

  lemma SortedHead<T(!new)>(leq: (T, T) -> bool, a: seq<T>, x: T)
    requires TotalPreorder(leq) && Sorted(leq, a) && x in a
    ensures leq(a[0], x)
  {
    assert leq(a[0], a[0]);
  }

  lemma SortedTail<T(!new)>(leq: (T, T) -> bool, a: seq<T>)
    requires Sorted(leq, a) && a != []
    ensures Sorted(leq, a[1..])
  {
  }

  lemma {:induction false} SameLeast<T(!new)>(leq: (T, T) -> bool, a: seq<T>, b: seq<T>)
    requires TotalPreorder(leq) && Antisymmetric(leq) && Sorted(leq, a) && Sorted(leq, b)
    requires multiset(a) == multiset(b) && a != [] && b != []
    ensures a[0] == b[0]
  {
    MultisetLength(a, b);
    SortedHead(leq, a, b[0]);
    SortedHead(leq, b, a[0]);
  }

  /** A linear order has one sorted arrangement of a given multiset. */
  lemma {:induction false} SortedUnique<T(!new)>(leq: (T, T) -> bool, a: seq<T>, b: seq<T>)
    requires TotalPreorder(leq) && Antisymmetric(leq)
    requires Sorted(leq, a) && Sorted(leq, b) && multiset(a) == multiset(b)
    ensures a == b
  {
    MultisetLength(a, b);
    if a != [] {
      SameLeast(leq, a, b);
      MultisetTail(a);
      MultisetTail(b);
      SortedTail(leq, a);
      SortedTail(leq, b);
      SortedUnique(leq, a[1..], b[1..]);
      HeadAndTail(a);
      HeadAndTail(b);
    }
  }

  lemma HeadAndTail<T>(s: seq<T>)
    requires s != []
    ensures s == [s[0]] + s[1..]
  {
  }

  /** Sorting forgets the order of its input. */
  lemma SortOrderIndependent<T(!new)>(leq: (T, T) -> bool, s: seq<T>, t: seq<T>)
    requires TotalPreorder(leq) && Antisymmetric(leq) && multiset(s) == multiset(t)
    ensures Sort(leq, s) == Sort(leq, t)
  {
    SortSorts(leq, s);
    SortSorts(leq, t);
    SortPermutes(leq, s);
    SortPermutes(leq, t);
    SortedUnique(leq, Sort(leq, s), Sort(leq, t));
  }

  lemma DistinctTail<T(!new)>(s: seq<T>)
    requires Distinct(s) && s != []
    ensures Distinct(s[1..]) && s[0] !in s[1..]
  {
    var t := s[1..];
    forall i, j | 0 <= i < j < |t| ensures t[i] != t[j] {
      assert t[i] == s[i + 1] && t[j] == s[j + 1];
    }
    forall i | 0 <= i < |t| ensures t[i] != s[0] {
      assert t[i] == s[i + 1];
    }
  }

  lemma {:induction false} ElementsTail<T(!new)>(s: seq<T>)
    requires s != []
    ensures Elements(s) == {s[0]} + Elements(s[1..])
  {
    HeadAndTail(s);
    forall x ensures x in s <==> x == s[0] || x in s[1..] {
      assert x in [s[0]] + s[1..] <==> x == s[0] || x in s[1..];
    }
  }

  lemma AddOne<T>(x: T, rest: set<T>)
    requires x !in rest
    ensures multiset({x} + rest) == multiset{x} + multiset(rest) && |{x} + rest| == |rest| + 1
  {
  }

  lemma {:induction false} DistinctMultiset<T(!new)>(s: seq<T>)
    requires Distinct(s)
    ensures multiset(s) == multiset(Elements(s))
    ensures |Elements(s)| == |s|
  {
    if s == [] {
      assert Elements(s) == {};
    } else {
      DistinctTail(s);
      DistinctMultiset(s[1..]);
      MultisetTail(s);
      ElementsTail(s);
      AddOne(s[0], Elements(s[1..]));
    }
  }

  lemma DistinctSameSet<T(!new)>(a: seq<T>, b: seq<T>)
    requires Distinct(a) && Distinct(b) && (forall x :: x in a <==> x in b)
    ensures multiset(a) == multiset(b) && |a| == |b|
  {
    DistinctMultiset(a);
    DistinctMultiset(b);
    assert Elements(a) == Elements(b);
  }

  lemma {:induction false} DistinctSnoc<T(!new)>(s: seq<T>, x: T)
    ensures Distinct(s + [x]) <==> Distinct(s) && x !in s
  {
    var all := s + [x];
    assert forall i :: 0 <= i < |s| ==> all[i] == s[i];
    if Distinct(s) && x !in s {
      forall i, j | 0 <= i < j < |all| ensures all[i] != all[j] {
        if j == |s| {
          assert all[i] in s;
        }
      }
    }
    if Distinct(all) {
      forall i | 0 <= i < |s| ensures s[i] != x {
        assert all[i] != all[|s|];
      }
    }
  }

  lemma {:induction false} DistinctConcat<T(!new)>(a: seq<T>, b: seq<T>)
    requires Distinct(a) && Distinct(b) && forall x :: x in a ==> x !in b
    ensures Distinct(a + b)
  {
    forall i, j | 0 <= i < j < |a + b| ensures (a + b)[i] != (a + b)[j] {
      if i < |a| <= j {
        assert a[i] in a && b[j - |a|] in b;
      }
    }
  }

  lemma {:induction false} AppendLast<T>(s: seq<T>, x: T)
    ensures (s + [x])[..|s|] == s && (s + [x])[|s|] == x
  {
  }

  lemma RepeatCounts<T>(b: seq<T>, i: nat, j: nat)
    requires i < j < |b| && b[i] == b[j]
    ensures multiset(b)[b[i]] >= 2
  {
    assert b == b[..i] + [b[i]] + b[i + 1..j] + [b[j]] + b[j + 1..];
  }

  lemma MultisetDistinct<T(!new)>(a: seq<T>, b: seq<T>)
    requires Distinct(a) && multiset(a) == multiset(b)
    ensures Distinct(b)
  {
    DistinctMultiset(a);
    forall i, j | 0 <= i < j < |b| ensures b[i] != b[j] {
      if b[i] == b[j] {
        RepeatCounts(b, i, j);
        assert false;
      }
    }
  }

  function Map<T, U>(f: T -> U, s: seq<T>): (r: seq<U>)
    ensures |r| == |s| && forall i :: 0 <= i < |s| ==> r[i] == f(s[i])
  {
    if s == [] then [] else [f(s[0])] + Map(f, s[1..])
  }

  ghost predicate MapsAt<T, U>(f: T -> U, s: seq<T>, r: seq<U>, i: nat) {
    i < |s| && i < |r| && r[i] == f(s[i])
  }

  lemma {:induction false} MapByPoints<T, U>(f: T -> U, s: seq<T>, r: seq<U>)
    requires |s| == |r| && forall i: nat :: i < |s| ==> MapsAt(f, s, r, i)
    ensures r == Map(f, s)
  {
    forall i | 0 <= i < |s| ensures r[i] == Map(f, s)[i] {
      assert MapsAt(f, s, r, i);
    }
  }

  /** Mapping a rearrangement rearranges the mapped values. */
  lemma {:induction false} MapPermutation<T, U>(f: T -> U, a: seq<T>, b: seq<T>)
    requires multiset(a) == multiset(b)
    ensures multiset(Map(f, a)) == multiset(Map(f, b))
  {
    MultisetLength(a, b);
    if a != [] {
      assert a[0] in b;
      var j :| 0 <= j < |b| && b[j] == a[0];
      var c := b[..j] + b[j + 1..];
      MultisetTail(a);
      MultisetRemove(b, j);
      MapPermutation(f, a[1..], c);
      MapRemove(f, b, j);
      assert Map(f, a) == [f(a[0])] + Map(f, a[1..]);
    }
  }

  lemma MapConcat<T, U>(f: T -> U, a: seq<T>, b: seq<T>)
    ensures Map(f, a + b) == Map(f, a) + Map(f, b)
  {
  }

  lemma MapAppend<T, U>(f: T -> U, s: seq<T>, x: T)
    ensures Map(f, s + [x]) == Map(f, s) + [f(x)]
  {
    MapConcat(f, s, [x]);
  }

  lemma SplitAround<T>(b: seq<T>, j: nat)
    requires j < |b|
    ensures (b[..j] + [b[j]]) + b[j + 1..] == b
  {
  }

  lemma MapAround<T, U>(f: T -> U, b: seq<T>, j: nat)
    requires j < |b|
    ensures Map(f, b) == Map(f, b[..j]) + [f(b[j])] + Map(f, b[j + 1..])
  {
    SplitAround(b, j);
    MapConcat(f, b[..j] + [b[j]], b[j + 1..]);
    MapAppend(f, b[..j], b[j]);
  }

  lemma MapRemove<T, U>(f: T -> U, b: seq<T>, j: nat)
    requires j < |b|
    ensures multiset(Map(f, b)) == multiset{f(b[j])} + multiset(Map(f, b[..j] + b[j + 1..]))
  {
    MapAround(f, b, j);
    MapConcat(f, b[..j], b[j + 1..]);
    MultisetAround(Map(f, b[..j]), f(b[j]), Map(f, b[j + 1..]));
  }

  lemma MultisetAround<T>(p: seq<T>, x: T, q: seq<T>)
    ensures multiset(p + [x] + q) == multiset{x} + multiset(p + q)
  {
  }

  function Sum<T>(f: T -> int, s: seq<T>): int {
    if s == [] then 0 else f(s[0]) + Sum(f, s[1..])
  }

  lemma {:induction false} SumConcat<T>(f: T -> int, a: seq<T>, b: seq<T>)
    ensures Sum(f, a + b) == Sum(f, a) + Sum(f, b)
  {
    if a == [] {
      assert a + b == b;
    } else {
      SumConcat(f, a[1..], b);
      assert (a + b)[1..] == a[1..] + b;
    }
  }

  lemma SumRemove<T>(f: T -> int, b: seq<T>, j: nat)
    requires j < |b|
    ensures Sum(f, b) == f(b[j]) + Sum(f, b[..j] + b[j + 1..])
  {
    var tail := b[j..];
    assert b == b[..j] + tail && tail[0] == b[j] && tail[1..] == b[j + 1..];
    SumConcat(f, b[..j], tail);
    SumConcat(f, b[..j], b[j + 1..]);
  }

  /** A sum depends on the multiset of its terms only. */
  lemma {:induction false} SumPermutation<T>(f: T -> int, a: seq<T>, b: seq<T>)
    requires multiset(a) == multiset(b)
    ensures Sum(f, a) == Sum(f, b)
  {
    MultisetLength(a, b);
    if a != [] {
      assert a[0] in b;
      var j :| 0 <= j < |b| && b[j] == a[0];
      MultisetTail(a);
      MultisetRemove(b, j);
      SumPermutation(f, a[1..], b[..j] + b[j + 1..]);
      SumRemove(f, b, j);
    }
  }
}
