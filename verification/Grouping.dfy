/** Grouping a list by a key into a dictionary of lists, as the scripts do it. */
module Grouping {
  import opened Sorting

  function Filter<T>(p: T -> bool, s: seq<T>): seq<T> {
    if s == [] then []
    else
      var last := s[|s| - 1];
      Filter(p, s[..|s| - 1]) + if p(last) then [last] else []
  }

  function Map<T, U>(f: T -> U, s: seq<T>): (r: seq<U>)
    ensures |r| == |s|
    ensures forall i :: 0 <= i < |s| ==> r[i] == f(s[i])
  {
    seq(|s|, i requires 0 <= i < |s| => f(s[i]))
  }

  function Having<T, K(==)>(key: T -> K, k: K): T -> bool {
    x => key(x) == k
  }

  ghost predicate NoRepeats<T>(s: seq<T>) {
    forall i, j :: 0 <= i < j < |s| ==> s[i] != s[j]
  }

  /** The keys in the order of their first appearance. */
  function Keys<T, K(==,!new)>(key: T -> K, s: seq<T>): (ks: seq<K>)
    ensures NoRepeats(ks)
    ensures forall k :: k in ks <==> exists i :: 0 <= i < |s| && key(s[i]) == k
  {
    if s == [] then []
    else
      var earlier := Keys(key, s[..|s| - 1]);
      var k := key(s[|s| - 1]);
      if k in earlier then earlier else earlier + [k]
  }

  /** A dictionary of lists: `order` is its insertion order. */
  method GroupBy<T, K(==,!new)>(key: T -> K, s: seq<T>) returns (order: seq<K>, groups: map<K, seq<T>>)
    ensures order == Keys(key, s)
    ensures forall k :: k in groups <==> k in order
    ensures forall k :: k in groups ==> groups[k] == Filter(Having(key, k), s)
  {
    order, groups := [], map[];
    for i := 0 to |s|
      invariant order == Keys(key, s[..i])
      invariant forall k :: k in groups <==> k in order
      invariant forall k :: k in groups ==> groups[k] == Filter(Having(key, k), s[..i])
    {
      assert s[..i + 1][..i] == s[..i];
      var k := key(s[i]);
      if k !in groups {
        NoneHaving(key, k, s[..i]);
        groups := groups[k := []];
        order := order + [k];
      }
      groups := groups[k := groups[k] + [s[i]]];
    }
    assert s[..|s|] == s;
  }

  lemma {:induction false} NoneHaving<T, K(!new)>(key: T -> K, k: K, s: seq<T>)
    requires k !in Keys(key, s)
    ensures Filter(Having(key, k), s) == []
  {
    if s != [] {
      NoneHaving(key, k, s[..|s| - 1]);
    }
  }

  lemma {:induction false} FilterHolds<T(!new)>(p: T -> bool, s: seq<T>)
    ensures forall i :: 0 <= i < |Filter(p, s)| ==> p(Filter(p, s)[i]) && Filter(p, s)[i] in s
    ensures forall x :: x in s && p(x) ==> x in Filter(p, s)
  {
    if s != [] {
      FilterHolds(p, s[..|s| - 1]);
      assert s == s[..|s| - 1] + [s[|s| - 1]];
    }
  }

  lemma {:induction false} FilterCounts<T>(p: T -> bool, s: seq<T>, x: T)
    ensures multiset(Filter(p, s))[x] == if p(x) then multiset(s)[x] else 0
  {
    if s != [] {
      FilterCounts(p, s[..|s| - 1], x);
      assert s == s[..|s| - 1] + [s[|s| - 1]];
    }
  }

  lemma {:induction false} FilterOfAppend<T>(p: T -> bool, a: seq<T>, b: seq<T>)
    ensures Filter(p, a + b) == Filter(p, a) + Filter(p, b)
  {
    if b == [] {
      assert a + b == a;
    } else {
      FilterOfAppend(p, a, b[..|b| - 1]);
      assert (a + b)[..|a + b| - 1] == a + b[..|b| - 1];
    }
  }

  /** Filtering keeps a list sorted. */
  lemma {:induction false} FilterSorted<T(!new)>(le: (T, T) -> bool, p: T -> bool, s: seq<T>)
    requires Sorted(le, s)
    ensures Sorted(le, Filter(p, s))
  {
    if s != [] {
      FilterSorted(le, p, s[..|s| - 1]);
      FilterHolds(p, s[..|s| - 1]);
    }
  }

  lemma FilterOfOne<T>(p: T -> bool, x: T)
    ensures Filter(p, [x]) == if p(x) then [x] else []
  {
    assert [x][..0] == [];
  }

  lemma {:induction false} FilterNone<T>(p: T -> bool, s: seq<T>)
    requires forall i :: 0 <= i < |s| ==> !p(s[i])
    ensures Filter(p, s) == []
  {
    if s != [] {
      FilterNone(p, s[..|s| - 1]);
    }
  }

  lemma {:induction false} FilterAll<T>(p: T -> bool, s: seq<T>)
    requires forall i :: 0 <= i < |s| ==> p(s[i])
    ensures Filter(p, s) == s
  {
    if s != [] {
      FilterAll(p, s[..|s| - 1]);
      assert s == s[..|s| - 1] + [s[|s| - 1]];
    }
  }

  lemma {:induction false} InsertIsStable<T(!new)>(le: (T, T) -> bool, p: T -> bool, x: T, s: seq<T>)
    requires forall a, b :: p(a) && p(b) ==> le(a, b)
    ensures Filter(p, Insert(le, x, s)) == Filter(p, [x]) + Filter(p, s)
  {
    hide Filter;
    if s == [] || le(x, s[0]) {
      FilterOfAppend(p, [x], s);
      assert [x] + s == if s == [] then [x] else [x] + s;
    } else {
      var head, tail := [s[0]], s[1..];
      assert s == head + tail;
      InsertIsStable(le, p, x, tail);
      FilterOfAppend(p, head, Insert(le, x, tail));
      FilterOfAppend(p, head, tail);
      FilterOfOne(p, s[0]);
      FilterOfOne(p, x);
    }
  }

  /** Sorting is stable: elements that the order does not tell apart keep their order. */
  lemma {:induction false} SortIsStable<T(!new)>(le: (T, T) -> bool, p: T -> bool, s: seq<T>)
    requires forall a, b :: p(a) && p(b) ==> le(a, b)
    ensures Filter(p, Sort(le, s)) == Filter(p, s)
  {
    hide Filter;
    if s != [] {
      assert s == [s[0]] + s[1..];
      SortIsStable(le, p, s[1..]);
      InsertIsStable(le, p, s[0], Sort(le, s[1..]));
      FilterOfAppend(p, [s[0]], s[1..]);
    }
  }

  lemma FilterOfFirst<T>(p: T -> bool, s: seq<T>)
    requires s != []
    ensures Filter(p, s) == (if p(s[0]) then [s[0]] else []) + Filter(p, s[1..])
  {
    hide Filter;
    assert s == [s[0]] + s[1..];
    FilterOfAppend(p, [s[0]], s[1..]);
    FilterOfOne(p, s[0]);
  }

  /** What the order does not tell apart from `x`. */
  ghost function Class<T(!new)>(le: (T, T) -> bool, x: T): T -> bool {
    y => le(x, y) && le(y, x)
  }

  /** A sorted list is determined by the order of its elements within each class. */
  lemma {:induction false} SortedByClasses<T(!new)>(le: (T, T) -> bool, s: seq<T>, t: seq<T>)
    requires TotalPreorder(le) && Sorted(le, s) && Sorted(le, t)
    requires forall x :: Filter(Class(le, x), s) == Filter(Class(le, x), t)
    ensures s == t
  {
    hide Filter;
    if s == [] && t == [] {
      return;
    }
    SameFirst(le, s, t);
    forall x
      ensures Filter(Class(le, x), s[1..]) == Filter(Class(le, x), t[1..])
    {
      assert Filter(Class(le, x), s) == Filter(Class(le, x), t);
      FilterOfFirst(Class(le, x), s);
      FilterOfFirst(Class(le, x), t);
      Cancel(if Class(le, x)(s[0]) then [s[0]] else [], Filter(Class(le, x), s[1..]), Filter(Class(le, x), t[1..]));
    }
    SortedByClasses(le, s[1..], t[1..]);
    SameSequence(s, t);
  }

  lemma SameFirst<T(!new)>(le: (T, T) -> bool, s: seq<T>, t: seq<T>)
    requires TotalPreorder(le) && Sorted(le, s) && Sorted(le, t) && (s != [] || t != [])
    requires forall x :: Filter(Class(le, x), s) == Filter(Class(le, x), t)
    ensures s != [] && t != [] && s[0] == t[0]
  {
    hide Filter;
    if s != [] { FirstIsFound(le, s, t); }
    if t != [] { FirstIsFound(le, t, s); }
    assert le(s[0], t[0]) && le(t[0], s[0]);
    var p := Class(le, s[0]);
    assert Filter(p, s) == Filter(p, t);
    FilterOfFirst(p, s);
    FilterOfFirst(p, t);
    assert p(s[0]) && p(t[0]);
    assert Filter(p, s)[0] == s[0] && Filter(p, t)[0] == t[0];
  }

  lemma Cancel<T>(a: seq<T>, b: seq<T>, c: seq<T>)
    requires a + b == a + c
    ensures b == c
  {
    assert (a + b)[|a|..] == b && (a + c)[|a|..] == c;
  }

  lemma FirstIsFound<T(!new)>(le: (T, T) -> bool, s: seq<T>, t: seq<T>)
    requires TotalPreorder(le) && s != [] && Sorted(le, t)
    requires Filter(Class(le, s[0]), s) == Filter(Class(le, s[0]), t)
    ensures t != [] && le(t[0], s[0])
  {
    hide Filter;
    var p := Class(le, s[0]);
    assert le(s[0], s[0]);
    FilterHolds(p, s);
    FilterHolds(p, t);
    assert s[0] in Filter(p, t);
    var i :| 0 <= i < |Filter(p, t)| && Filter(p, t)[i] == s[0];
    var j :| 0 <= j < |t| && t[j] == s[0];
    assert j == 0 || le(t[0], t[j]);
  }

  /** The lists of a group depend on the order of the input only in their own order. */
  lemma FilterForgetsOrder<T(!new)>(p: T -> bool, a: seq<T>, b: seq<T>)
    requires multiset(a) == multiset(b)
    ensures multiset(Filter(p, a)) == multiset(Filter(p, b))
  {
    forall x
      ensures multiset(Filter(p, a))[x] == multiset(Filter(p, b))[x]
    {
      FilterCounts(p, a, x);
      FilterCounts(p, b, x);
    }
  }

  /** Takes one occurrence of `x` out of `s`. */
  lemma TakeOut<T>(s: seq<T>, x: T) returns (before: seq<T>, after: seq<T>)
    requires x in multiset(s)
    ensures s == before + [x] + after
    ensures multiset(before + after) == multiset(s) - multiset{x}
  {
    var i :| 0 <= i < |s| && s[i] == x;
    before, after := s[..i], s[i + 1..];
    assert s == before + [x] + after;
  }

  lemma HeadAndTail<T>(s: seq<T>)
    requires s != []
    ensures multiset(s[1..]) == multiset(s) - multiset{s[0]}
  {
    assert s == [s[0]] + s[1..];
  }

  lemma MapMiddle<T, U>(f: T -> U, before: seq<T>, x: T, after: seq<T>)
    ensures multiset(Map(f, before + [x] + after)) == multiset{f(x)} + multiset(Map(f, before + after))
  {
    assert Map(f, before + [x] + after) == Map(f, before) + [f(x)] + Map(f, after);
    assert Map(f, before + after) == Map(f, before) + Map(f, after);
  }

  lemma {:induction false} MapForgetsOrder<T, U>(f: T -> U, a: seq<T>, b: seq<T>)
    requires multiset(a) == multiset(b)
    ensures multiset(Map(f, a)) == multiset(Map(f, b))
  {
    hide Map;
    SameLength(a, b);
    if a == [] {
      assert a == b;
    } else {
      assert a[0] in multiset(a);
      var before, after := TakeOut(b, a[0]);
      HeadAndTail(a);
      MapForgetsOrder(f, a[1..], before + after);
      MapMiddle(f, before, a[0], after);
      MapMiddle(f, [], a[0], a[1..]);
      assert [] + [a[0]] + a[1..] == a && [] + a[1..] == a[1..];
    }
  }

  lemma {:induction false} NoRepeatsCount<T>(s: seq<T>, x: T)
    requires NoRepeats(s)
    ensures multiset(s)[x] == if x in s then 1 else 0
  {
    if s != [] {
      NoRepeatsCount(s[1..], x);
      assert s == [s[0]] + s[1..];
    }
  }

  /** The same keys appear, each once, whatever the order of the input. */
  lemma KeysForgetOrder<T, K(!new)>(key: T -> K, a: seq<T>, b: seq<T>)
    requires multiset(a) == multiset(b)
    ensures multiset(Keys(key, a)) == multiset(Keys(key, b))
  {
    forall k
      ensures k in Keys(key, a) <==> k in Keys(key, b)
    {
      if k in Keys(key, a) { KeyMoves(key, a, b, k); }
      if k in Keys(key, b) { KeyMoves(key, b, a, k); }
    }
    forall k
      ensures multiset(Keys(key, a))[k] == multiset(Keys(key, b))[k]
    {
      NoRepeatsCount(Keys(key, a), k);
      NoRepeatsCount(Keys(key, b), k);
    }
  }

  lemma KeyMoves<T, K(!new)>(key: T -> K, a: seq<T>, b: seq<T>, k: K)
    requires multiset(a) == multiset(b) && k in Keys(key, a)
    ensures k in Keys(key, b)
  {
    var i :| 0 <= i < |a| && key(a[i]) == k;
    assert a[i] in multiset(b);
    var j :| 0 <= j < |b| && b[j] == a[i];
  }
}
