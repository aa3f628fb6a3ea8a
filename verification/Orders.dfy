/** The sort keys of the scripts: strings, cases and libraries, compared as Python compares
    tuples. */
module Orders {
  import opened Sorting

  /** Lexicographic order of strings by code point. */
  predicate StringLe(a: string, b: string) {
    a == [] || (b != [] && (a[0] < b[0] || (a[0] == b[0] && StringLe(a[1..], b[1..]))))
  }

  lemma {:induction false} StringTotal(a: string, b: string)
    ensures StringLe(a, b) || StringLe(b, a)
    ensures StringLe(a, b) && StringLe(b, a) ==> a == b
  {
    if a != [] && b != [] {
      StringTotal(a[1..], b[1..]);
      assert a == [a[0]] + a[1..] && b == [b[0]] + b[1..];
    }
  }

  lemma {:induction false} StringTransitive(a: string, b: string, c: string)
    requires StringLe(a, b) && StringLe(b, c)
    ensures StringLe(a, c)
  {
    if a != [] && b != [] && c != [] && a[0] == b[0] == c[0] {
      StringTransitive(a[1..], b[1..], c[1..]);
    }
  }

  /** What one benchmark case is about. */
  datatype CaseKey = CaseKey(compiler: string, serverThreads: int, benchProcesses: int)

  predicate CaseLe(x: CaseKey, y: CaseKey) {
    if x.compiler != y.compiler then StringLe(x.compiler, y.compiler)
    else if x.serverThreads != y.serverThreads then x.serverThreads < y.serverThreads
    else x.benchProcesses <= y.benchProcesses
  }

  const LIBRARY_ORDER: seq<string> := ["bsd-sockets", "asio", "capy-corosio", "async-berkeley", "taps-asio"]

  function Position(name: string, names: seq<string>): nat {
    if names == [] || names[0] == name then 0 else 1 + Position(name, names[1..])
  }

  /** Order of `library_sort_key`: the fixed order first, then the rest by name. */
  predicate LibraryLe(a: string, b: string) {
    var i, j := Position(a, LIBRARY_ORDER), Position(b, LIBRARY_ORDER);
    i < j || (i == j && StringLe(a, b))
  }

  lemma CaseOrder()
    ensures TotalPreorder(CaseLe)
    ensures forall x, y :: CaseLe(x, y) && CaseLe(y, x) ==> x == y
  {
    forall x, y
      ensures CaseLe(x, y) || CaseLe(y, x)
      ensures CaseLe(x, y) && CaseLe(y, x) ==> x == y
    {
      StringTotal(x.compiler, y.compiler);
    }
    forall x, y, z | CaseLe(x, y) && CaseLe(y, z)
      ensures CaseLe(x, z)
    {
      CaseTransitive(x, y, z);
    }
  }

  lemma CaseTransitive(x: CaseKey, y: CaseKey, z: CaseKey)
    requires CaseLe(x, y) && CaseLe(y, z)
    ensures CaseLe(x, z)
  {
    if x.compiler != y.compiler && y.compiler != z.compiler {
      StringTransitive(x.compiler, y.compiler, z.compiler);
      StringTotal(x.compiler, y.compiler);
    }
  }

  lemma LibraryOrder()
    ensures TotalPreorder(LibraryLe)
    ensures forall a, b :: LibraryLe(a, b) && LibraryLe(b, a) ==> a == b
  {
    forall a, b
      ensures LibraryLe(a, b) || LibraryLe(b, a)
      ensures LibraryLe(a, b) && LibraryLe(b, a) ==> a == b
    {
      StringTotal(a, b);
    }
    forall a, b, c | LibraryLe(a, b) && LibraryLe(b, c)
      ensures LibraryLe(a, c)
    {
      if StringLe(a, b) && StringLe(b, c) {
        StringTransitive(a, b, c);
      }
    }
  }

  // ---------------------------------------------------------------------------
  // What the orders are
  // ---------------------------------------------------------------------------

  /** `a` comes before `b` at the first character in which they differ. */
  ghost predicate DiffersAt(a: string, b: string, i: nat) {
    i < |a| && i < |b| && a[..i] == b[..i] && a[i] < b[i]
  }

  /** A string comes first if the other one extends it, or at the first difference. */
  lemma {:induction false} StringLeMeaning(a: string, b: string)
    ensures StringLe(a, b) <==> a <= b || exists i: nat :: DiffersAt(a, b, i)
  {
    if a != [] && b != [] && a[0] == b[0] {
      var x, y := a[1..], b[1..];
      StringLeMeaning(x, y);
      assert a == [a[0]] + x && b == [a[0]] + y;
      forall i: nat
        ensures DiffersAt(a, b, i + 1) <==> DiffersAt(x, y, i)
      {
        LaterDifference(a, b, i);
      }
      if i: nat :| DiffersAt(a, b, i) { assert DiffersAt(x, y, i - 1 as nat); }
      if i: nat :| DiffersAt(x, y, i) { assert DiffersAt(a, b, i + 1); }
    } else if a != [] && b != [] {
      if a[0] < b[0] { assert DiffersAt(a, b, 0); }
      if i: nat :| DiffersAt(a, b, i) { assert i > 0 ==> a[..i][0] == b[..i][0]; }
    }
  }

  lemma LaterDifference(a: string, b: string, i: nat)
    requires a != [] && b != [] && a[0] == b[0]
    ensures DiffersAt(a, b, i + 1) <==> DiffersAt(a[1..], b[1..], i)
  {
    if i < |a| - 1 && i < |b| - 1 {
      assert a[..i + 1] == [a[0]] + a[1..][..i] && b[..i + 1] == [b[0]] + b[1..][..i];
      assert a[..i + 1][1..] == a[1..][..i] && b[..i + 1][1..] == b[1..][..i];
    }
  }

  lemma {:induction false} PositionIsFirst(name: string, names: seq<string>)
    ensures Position(name, names) <= |names|
    ensures name in names <==> Position(name, names) < |names|
    ensures name in names ==> names[Position(name, names)] == name
    ensures forall i :: 0 <= i < Position(name, names) ==> names[i] != name
  {
    if names != [] && names[0] != name {
      PositionIsFirst(name, names[1..]);
    }
  }

  /** The libraries of the fixed list come in the order of the list, before all others, and the
      others in the order of their names. */
  lemma LibraryLeMeaning(a: string, b: string)
    ensures forall i, j ::
              0 <= i < |LIBRARY_ORDER| && 0 <= j < |LIBRARY_ORDER| && a == LIBRARY_ORDER[i] && b == LIBRARY_ORDER[j] ==>
                (LibraryLe(a, b) <==> i <= j)
    ensures a in LIBRARY_ORDER && b !in LIBRARY_ORDER ==> LibraryLe(a, b) && !LibraryLe(b, a)
    ensures a !in LIBRARY_ORDER && b !in LIBRARY_ORDER ==> (LibraryLe(a, b) <==> StringLe(a, b))
  {
    hide Position; hide StringLe;
    PositionIsFirst(a, LIBRARY_ORDER);
    PositionIsFirst(b, LIBRARY_ORDER);
    StringTotal(a, a);
    ListedOnce();
  }

  lemma ListedOnce()
    ensures forall i, j :: 0 <= i < j < |LIBRARY_ORDER| ==> LIBRARY_ORDER[i] != LIBRARY_ORDER[j]
  {
    assert |LIBRARY_ORDER[0]| == 11 && |LIBRARY_ORDER[1]| == 4 && |LIBRARY_ORDER[2]| == 12;
    assert |LIBRARY_ORDER[3]| == 14 && |LIBRARY_ORDER[4]| == 9;
  }

  /** Cases in order: compilers ascend, the server threads of each compiler do, and then the
      processes. */
  ghost predicate CasesAscend(x: CaseKey, y: CaseKey) {
    && StringLe(x.compiler, y.compiler)
    && (x.compiler == y.compiler ==> x.serverThreads <= y.serverThreads)
    && (x.compiler == y.compiler && x.serverThreads == y.serverThreads ==> x.benchProcesses <= y.benchProcesses)
  }

  lemma CaseLeMeaning(x: CaseKey, y: CaseKey)
    ensures CaseLe(x, y) <==> CasesAscend(x, y)
  {
    hide StringLe;
    StringTotal(x.compiler, y.compiler);
  }
}
