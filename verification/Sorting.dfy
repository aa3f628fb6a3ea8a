/** Python's `sorted` and `list.sort`, for any order. */
module Sorting {

  ghost predicate TotalPreorder<T(!new)>(le: (T, T) -> bool) {
    && (forall x, y :: le(x, y) || le(y, x))
    && (forall x, y, z :: le(x, y) && le(y, z) ==> le(x, z))
  }

  ghost predicate Sorted<T>(le: (T, T) -> bool, s: seq<T>) {
    forall i, j :: 0 <= i < j < |s| ==> le(s[i], s[j])
  }

  function Insert<T>(le: (T, T) -> bool, x: T, s: seq<T>): (r: seq<T>)
    ensures |r| == |s| + 1
  {
    if s == [] then [x]
    else if le(x, s[0]) then [x] + s
    else [s[0]] + Insert(le, x, s[1..])
  }

  function Sort<T>(le: (T, T) -> bool, s: seq<T>): (r: seq<T>)
    ensures |r| == |s|
  {
    if s == [] then [] else Insert(le, s[0], Sort(le, s[1..]))
  }

  lemma {:induction false} InsertPermutes<T>(le: (T, T) -> bool, x: T, s: seq<T>)
    ensures multiset(Insert(le, x, s)) == multiset{x} + multiset(s)
  {
    if s != [] {
      assert s == [s[0]] + s[1..];
      InsertPermutes(le, x, s[1..]);
    }
  }

  lemma {:induction false} InsertSorts<T(!new)>(le: (T, T) -> bool, x: T, s: seq<T>)
    requires TotalPreorder(le) && Sorted(le, s)
    ensures Sorted(le, Insert(le, x, s))
  {
    if s != [] && !le(x, s[0]) {
      var rest := Insert(le, x, s[1..]);
      InsertSorts(le, x, s[1..]);
      InsertPermutes(le, x, s[1..]);
      forall k | 0 <= k < |rest|
        ensures le(s[0], rest[k])
      {
        assert rest[k] in multiset(rest);
        assert rest[k] == x || rest[k] in s[1..];
      }
    }
  }

  lemma {:induction false} SortSorts<T(!new)>(le: (T, T) -> bool, s: seq<T>)
    ensures multiset(Sort(le, s)) == multiset(s)
    ensures TotalPreorder(le) ==> Sorted(le, Sort(le, s))
  {
    if s != [] {
      assert s == [s[0]] + s[1..];
      SortSorts(le, s[1..]);
      InsertPermutes(le, s[0], Sort(le, s[1..]));
      if TotalPreorder(le) { InsertSorts(le, s[0], Sort(le, s[1..])); }
    }
  }

  /** On the elements of `s` the order tells apart what is different. */
  ghost predicate Antisymmetric<T(!new)>(le: (T, T) -> bool, s: multiset<T>) {
    forall x, y :: x in s && y in s && le(x, y) && le(y, x) ==> x == y
  }

  lemma SameHead<T(!new)>(le: (T, T) -> bool, a: seq<T>, b: seq<T>)
    requires a != [] && multiset(a) == multiset(b) && Antisymmetric(le, multiset(a))
    requires Sorted(le, a) && Sorted(le, b)
    ensures b != [] && a[0] == b[0]
  {
    SameLength(a, b);
    assert a[0] in multiset(b) && b[0] in multiset(a);
    var i :| 0 <= i < |b| && b[i] == a[0];
    var j :| 0 <= j < |a| && a[j] == b[0];
    assert i > 0 ==> le(b[0], b[i]);
    assert j > 0 ==> le(a[0], a[j]);
  }

  lemma Tail<T(!new)>(le: (T, T) -> bool, s: seq<T>)
    requires s != [] && Sorted(le, s) && Antisymmetric(le, multiset(s))
    ensures Sorted(le, s[1..]) && multiset(s[1..]) == multiset(s) - multiset{s[0]}
    ensures Antisymmetric(le, multiset(s[1..]))
  {
    assert s == [s[0]] + s[1..];
  }

  lemma SameLength<T>(a: seq<T>, b: seq<T>)
    requires multiset(a) == multiset(b)
    ensures |a| == |b|
  {
    assert |a| == |multiset(a)| == |multiset(b)| == |b|;
  }

  lemma SameSequence<T>(a: seq<T>, b: seq<T>)
    requires a != [] && b != [] && a[0] == b[0] && a[1..] == b[1..]
    ensures a == b
  {
    assert a == [a[0]] + a[1..] && b == [b[0]] + b[1..];
  }

  lemma {:induction false} SortedIsUnique<T(!new)>(le: (T, T) -> bool, a: seq<T>, b: seq<T>)
    requires multiset(a) == multiset(b) && Antisymmetric(le, multiset(a))
    requires Sorted(le, a) && Sorted(le, b)
    ensures a == b
  {
    hide Antisymmetric; hide Sorted;
    SameLength(a, b);
    if a != [] {
      SameHead(le, a, b);
      Tail(le, a);
      Tail(le, b);
      SortedIsUnique(le, a[1..], b[1..]);
      SameSequence(a, b);
    }
  }

  /** Sorting forgets the order of its input when no two elements tie. */
  lemma {:induction false} SortForgetsOrder<T(!new)>(le: (T, T) -> bool, a: seq<T>, b: seq<T>)
    requires TotalPreorder(le) && multiset(a) == multiset(b) && Antisymmetric(le, multiset(a))
    ensures Sort(le, a) == Sort(le, b)
  {
    SortSorts(le, a);
    SortSorts(le, b);
    SortedIsUnique(le, Sort(le, a), Sort(le, b));
  }
}
