/** Dictionary-building loops over any element type, and the order of text. */
module Grouping {
  import opened Contracts
  import opened Sorting

  function Filter<T>(keep: T -> bool, s: seq<T>): (r: seq<T>) {
    if s == [] then []
    else
      var n := |s| - 1;
      if keep(s[n]) then Filter(keep, s[..n]) + [s[n]] else Filter(keep, s[..n])
  }

  lemma {:induction false} FilterIn<T>(keep: T -> bool, s: seq<T>, x: T)
    ensures x in Filter(keep, s) <==> x in s && keep(x)
  {
    if s != [] {
      var n := |s| - 1;
      FilterIn(keep, s[..n], x);
      TakeSnoc(s, n);
      TakeAll(s);
    }
  }

  /** The elements carrying one key, in their order. */
  ghost function Having<K(!new), T>(key: T -> K, k: K): T -> bool {
    (x: T) => key(x) == k
  }

  /** Every key that occurs holds its own elements, in order, and no other key is there. */
  ghost predicate Grouped<K(!new), T>(key: T -> K, items: seq<T>, groups: map<K, seq<T>>) {
    && (forall k :: k in groups <==> k in Map(key, items))
    && (forall k :: k in groups ==> groups[k] == Filter(Having(key, k), items))
  }

  /** Each key's elements, gathered under it: what `setdefault(key, []).append(x)` builds. */
  method GroupBy<K(==,!new), T>(key: T -> K, items: seq<T>) returns (groups: map<K, seq<T>>)
    ensures Grouped(key, items, groups)
  {
    groups := map[];
    for i := 0 to |items|
      invariant Grouped(key, items[..i], groups)
    {
      var k := key(items[i]);
      GroupOne(key, items[..i], groups, items[i]);
      TakeSnoc(items, i);
      if k !in groups {
        groups := groups[k := []];
      }
      groups := groups[k := groups[k] + [items[i]]];
    }
    TakeAll(items);
  }

  /** The groups with one more element put under its key. */
  function WithOne<K(==), T>(groups: map<K, seq<T>>, k: K, x: T): map<K, seq<T>> {
    groups[k := (if k in groups then groups[k] else []) + [x]]
  }

  lemma {:induction false} FilterSnoc<T>(keep: T -> bool, s: seq<T>, x: T)
    ensures Filter(keep, s + [x]) == if keep(x) then Filter(keep, s) + [x] else Filter(keep, s)
  {
    AppendLast(s, x);
  }

  lemma {:induction false} GroupOne<K(!new), T>(key: T -> K, items: seq<T>, groups: map<K, seq<T>>, x: T)
    requires Grouped(key, items, groups)
    ensures Grouped(key, items + [x], WithOne(groups, key(x), x))
  {
    var more := WithOne(groups, key(x), x);
    MapAppend(key, items, x);
    if key(x) !in groups {
      NoneHaving(key, key(x), items);
    }
    forall k | k in more ensures more[k] == Filter(Having(key, k), items + [x]) {
      FilterSnoc(Having(key, k), items, x);
    }
  }

  lemma {:induction false} FilterSame<T(!new)>(f: T -> bool, g: T -> bool, s: seq<T>)
    requires forall x :: f(x) == g(x)
    ensures Filter(f, s) == Filter(g, s)
  {
    if s != [] {
      FilterSame(f, g, s[..|s| - 1]);
    }
  }

  lemma {:induction false} NoneHaving<K(!new), T>(key: T -> K, k: K, items: seq<T>)
    requires k !in Map(key, items)
    ensures Filter(Having(key, k), items) == []
  {
    if items != [] {
      var n := |items| - 1;
      TakeSnoc(items, n);
      TakeAll(items);
      MapAppend(key, items[..n], items[n]);
      NoneHaving(key, k, items[..n]);
    }
  }

  /** Equal keys carry equal values. */
  ghost predicate Functional<K, V>(keys: seq<K>, values: seq<V>)
    requires |keys| == |values|
  {
    forall i, j :: 0 <= i < j < |keys| && keys[i] == keys[j] ==> values[i] == values[j]
  }

  lemma {:induction false} FunctionalWhen<T, K, V>(f: T -> K, g: T -> V, s: seq<T>)
    requires forall i, j :: 0 <= i < j < |s| && f(s[i]) == f(s[j]) ==> g(s[i]) == g(s[j])
    ensures Functional(Map(f, s), Map(g, s))
  {
  }

  /** What `setdefault` builds when no key ever changes its value, or nothing when one does. */
  method ValuePerKey<K(==,!new), V(==)>(keys: seq<K>, values: seq<V>) returns (ok: bool, found: map<K, V>)
    requires |keys| == |values|
    ensures ok <==> Functional(keys, values)
    ensures ok ==> forall k :: k in found <==> k in keys
    ensures ok ==> forall i :: 0 <= i < |keys| ==> keys[i] in found && found[keys[i]] == values[i]
  {
    found := map[];
    for i := 0 to |keys|
      invariant forall k :: k in found <==> k in keys[..i]
      invariant forall j :: 0 <= j < i ==> keys[j] in found && found[keys[j]] == values[j]
      invariant Functional(keys[..i], values[..i])
    {
      TakeSnoc(keys, i);
      if keys[i] in found {
        if found[keys[i]] != values[i] {
          var j :| 0 <= j < i && keys[..i][j] == keys[i];
          assert values[j] != values[i];
          return false, found;
        }
      } else {
        found := found[keys[i] := values[i]];
      }
    }
    TakeAll(keys);
    return true, found;
  }

  /** The two key collections name the same things. */
  ghost predicate SameKeys<K(!new), V>(m: map<K, V>, keys: seq<K>) {
    forall k :: k in m <==> k in keys
  }

  method CheckKeys<K(==,!new), V>(m: map<K, V>, keys: seq<K>) returns (ok: bool)
    ensures ok <==> SameKeys(m, keys)
  {
    ok := m.Keys == set k | k in keys;
    if ok {
      forall k ensures k in m <==> k in keys {
        assert k in m.Keys <==> k in set k | k in keys;
      }
    }
  }

  /** What the map holds for each key, in the keys' order. */
  function Lookups<K, V>(m: map<K, V>, keys: seq<K>): (v: seq<V>)
    requires forall k :: k in keys ==> k in m
    ensures |v| == |keys| && forall i :: 0 <= i < |keys| ==> v[i] == m[keys[i]]
  {
    seq(|keys|, i requires 0 <= i < |keys| => m[keys[i]])
  }

  /** Every index below `n` passes. */
  method AllPass(n: nat, test: nat -> bool) returns (ok: bool)
    ensures ok <==> forall i: nat :: i < n ==> test(i)
  {
    for i := 0 to n
      invariant forall j: nat :: j < i ==> test(j)
    {
      if !test(i) {
        return false;
      }
    }
    return true;
  }

  lemma {:induction false} RepeatStays<T(!new)>(s: seq<T>, n: nat)
    requires n <= |s| && !Distinct(s[..n])
    ensures !Distinct(s)
  {
  }

  /** No key is used twice: the loop with a growing set. */
  method AllDifferent<T(==,!new)>(keys: seq<T>) returns (ok: bool)
    ensures ok <==> Distinct(keys)
  {
    var seen: set<T> := {};
    for i := 0 to |keys|
      invariant forall x :: x in seen <==> x in keys[..i]
      invariant Distinct(keys[..i])
    {
      TakeSnoc(keys, i);
      DistinctSnoc(keys[..i], keys[i]);
      if keys[i] in seen {
        RepeatStays(keys, i + 1);
        return false;
      }
      seen := seen + {keys[i]};
    }
    TakeAll(keys);
    return true;
  }

  /** The same things occur in both. */
  ghost predicate SameThings<T(!new)>(a: seq<T>, b: seq<T>) {
    forall x :: x in a <==> x in b
  }

  method CheckSameThings<T(==,!new)>(a: seq<T>, b: seq<T>) returns (ok: bool)
    ensures ok <==> SameThings(a, b)
  {
    var left, right := set x | x in a, set x | x in b;
    ok := left == right;
    assert forall x :: x in left <==> x in a;
    assert forall x :: x in right <==> x in b;
  }

  /** Exactly one value occurs. */
  predicate OneValue<T(==)>(s: seq<T>) {
    s != [] && forall i :: 0 <= i < |s| ==> s[i] == s[0]
  }

  ghost predicate FiveOf<P, X>(cell: (P, nat) -> X, p: P, five: seq<X>) {
    |five| == 5 && forall k: nat :: k < 5 ==> five[k] == cell(p, k)
  }

  /** Five results an element, in the elements' order. */
  ghost predicate Laid<P, X>(cell: (P, nat) -> X, outer: seq<P>, all: seq<X>) {
    if outer == [] then all == []
    else
      && |all| >= 5 && Laid(cell, outer[..|outer| - 1], all[..|all| - 5])
      && FiveOf(cell, outer[|outer| - 1], all[|all| - 5..])
  }

  lemma {:induction false} LaidStep<P, X>(cell: (P, nat) -> X, outer: seq<P>, all: seq<X>, more: seq<X>, n: nat)
    requires n < |outer| && Laid(cell, outer[..n], all)
    requires FiveOf(cell, outer[n], more)
    ensures Laid(cell, outer[..n + 1], all + more)
  {
    TakeTake(outer, n + 1, n);
    assert (all + more)[..|all + more| - 5] == all && (all + more)[|all + more| - 5..] == more;
  }

  lemma {:induction false} SplitIndex<X>(all: seq<X>, m: nat, x: nat)
    requires m <= |all| && x < |all|
    ensures all[x] == if x < m then all[..m][x] else all[m..][x - m]
  {
  }

  /** Result 5i + k is the one of element i. */
  lemma {:induction false} LaidAt<P, X>(cell: (P, nat) -> X, outer: seq<P>, all: seq<X>, i: nat, k: nat)
    requires Laid(cell, outer, all) && i < |outer| && k < 5
    ensures |all| == 5 * |outer| && all[5 * i + k] == cell(outer[i], k)
  {
    var n := |outer| - 1;
    LaidLength(cell, outer, all);
    SplitIndex(all, |all| - 5, 5 * i + k);
    if i < n {
      LaidAt(cell, outer[..n], all[..|all| - 5], i, k);
    } else {
      assert FiveOf(cell, outer[n], all[|all| - 5..]);
      assert 5 * i + k - (|all| - 5) == k;
    }
  }

  lemma {:induction false} LaidLength<P, X>(cell: (P, nat) -> X, outer: seq<P>, all: seq<X>)
    requires Laid(cell, outer, all)
    ensures |all| == 5 * |outer|
  {
    if outer != [] {
      LaidLength(cell, outer[..|outer| - 1], all[..|all| - 5]);
    }
  }

  /** `n` strides of width `w`. */
  function Times(n: nat, w: nat): nat {
    if n == 0 then 0 else Times(n - 1, w) + w
  }

  lemma {:induction false} TimesIs(n: nat, w: nat)
    ensures Times(n, w) == n * w
  {
    if n > 0 {
      TimesIs(n - 1, w);
    }
  }

  lemma {:induction false} TimesApart(m: nat, n: nat, w: nat)
    requires m < n
    ensures Times(m, w) + w <= Times(n, w)
  {
    if m + 1 < n {
      TimesApart(m, n - 1, w);
    }
  }

  /** The first `n` parts, end to end: what a loop of `extend` builds. */
  function Flatten<X>(part: nat -> seq<X>, n: nat): seq<X> {
    if n == 0 then [] else Flatten(part, n - 1) + part(n - 1)
  }

  lemma {:induction false} FlattenLength<X>(part: nat -> seq<X>, w: nat, n: nat)
    requires forall m: nat :: m < n ==> |part(m)| == w
    ensures |Flatten(part, n)| == Times(n, w)
  {
    if n > 0 {
      FlattenLength(part, w, n - 1);
    }
  }

  /** Item `j` of part `i` stands `j` places after `i` strides. */
  lemma {:induction false} FlattenAt<X>(part: nat -> seq<X>, w: nat, n: nat, i: nat, j: nat)
    requires (forall m: nat :: m < n ==> |part(m)| == w) && i < n && j < w
    ensures Times(i, w) + j < |Flatten(part, n)| && Flatten(part, n)[Times(i, w) + j] == part(i)[j]
  {
    FlattenLength(part, w, n - 1);
    TimesApart(i, n, w);
    if i < n - 1 {
      FlattenAt(part, w, n - 1, i, j);
    }
  }

  /** Every place belongs to a part. */
  lemma {:induction false} FlattenCovers<X>(part: nat -> seq<X>, w: nat, n: nat, x: nat) returns (i: nat, j: nat)
    requires (forall m: nat :: m < n ==> |part(m)| == w) && x < |Flatten(part, n)|
    ensures i < n && j < w && x == Times(i, w) + j
  {
    FlattenLength(part, w, n - 1);
    if x < |Flatten(part, n - 1)| {
      i, j := FlattenCovers(part, w, n - 1, x);
    } else {
      i, j := n - 1, x - |Flatten(part, n - 1)|;
    }
  }

  /** 0, 1, ..., n - 1. */
  function UpTo(n: nat): (s: seq<nat>)
    ensures |s| == n && forall i :: 0 <= i < n ==> s[i] == i
  {
    seq(n, i requires 0 <= i < n => i)
  }

  /** First occurrences, in order. */
  function Dedup<T(==)>(s: seq<T>): seq<T> {
    if s == [] then []
    else
      var d := Dedup(s[..|s| - 1]);
      if s[|s| - 1] in d then d else d + [s[|s| - 1]]
  }

  lemma {:induction false} DedupDistinct<T(!new)>(s: seq<T>)
    ensures Distinct(Dedup(s))
    ensures forall x :: x in Dedup(s) <==> x in s
  {
    if s != [] {
      var n := |s| - 1;
      DedupDistinct(s[..n]);
      TakeSnoc(s, n);
      TakeAll(s);
      var d := Dedup(s[..n]);
      if s[n] !in d {
        forall i, j | 0 <= i < j < |d + [s[n]]| ensures (d + [s[n]])[i] != (d + [s[n]])[j] {
          if j == |d| {
            assert d[i] in d;
          }
        }
      }
    }
  }

  /** Text order: by the first differing character, a prefix first. */
  predicate TextLeq(a: string, b: string) {
    a == [] || (b != [] && (a[0] < b[0] || (a[0] == b[0] && TextLeq(a[1..], b[1..]))))
  }

  lemma {:induction false} TextTotal(a: string, b: string)
    ensures TextLeq(a, b) || TextLeq(b, a)
    ensures TextLeq(a, b) && TextLeq(b, a) ==> a == b
  {
    if a != [] && b != [] && a[0] == b[0] {
      TextTotal(a[1..], b[1..]);
      assert a == [a[0]] + a[1..] && b == [b[0]] + b[1..];
    }
  }

  lemma {:induction false} TextTransitive(a: string, b: string, c: string)
    requires TextLeq(a, b) && TextLeq(b, c)
    ensures TextLeq(a, c)
  {
    if a != [] && a[0] == b[0] && b[0] == c[0] {
      TextTransitive(a[1..], b[1..], c[1..]);
    }
  }

  lemma TextOrder()
    ensures TotalPreorder(TextLeq) && Antisymmetric(TextLeq)
  {
    forall a: string, b: string
      ensures TextLeq(a, b) || TextLeq(b, a)
      ensures TextLeq(a, b) && TextLeq(b, a) ==> a == b
    {
      TextTotal(a, b);
    }
    forall a: string, b: string, c: string | TextLeq(a, b) && TextLeq(b, c) ensures TextLeq(a, c) {
      TextTransitive(a, b, c);
    }
  }
}
