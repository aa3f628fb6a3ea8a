/** `build_best_by_case` and `build_library_overview`: who wins each case, and how each
    library does over all of its cases. */
module Winners {
  import opened Sorting
  import opened Orders
  import opened Grouping
  import opened Statistics
  import opened Campaign
  import opened MasterSummary

  type Figure = MasterRow -> Option<real>

  const TIME: Figure := (x: MasterRow) => Get(x.fields, ElapsedMs, MeanKey)
  const ENERGY: Figure := (x: MasterRow) => Get(x.fields, EnergyJ, MeanKey)
  const THROUGHPUT: Figure := (x: MasterRow) => Get(x.fields, Throughput, MeanKey)
  const EFFICIENCY: Figure := (x: MasterRow) => x.throughputPerJouleMean

  const CASE_OF: MasterRow -> CaseKey := (x: MasterRow) => x.key
  const LIBRARY_OF: MasterRow -> string := (x: MasterRow) => x.libraryId

  // ---------------------------------------------------------------------------
  // Winners
  // ---------------------------------------------------------------------------

  /** Strictly better, where a missing value stands for the infinity that loses. */
  predicate Beats(high: bool, x: Option<real>, y: Option<real>) {
    x.Some? && (y.None? || if high then x.value > y.value else x.value < y.value)
  }

  /** Python's `min` and `max` by a key: the first of the extremal items. */
  function First(high: bool, figure: Figure, items: seq<MasterRow>): MasterRow
    requires items != []
  {
    var last := items[|items| - 1];
    if |items| == 1 then last
    else
      var best := First(high, figure, items[..|items| - 1]);
      if Beats(high, figure(last), figure(best)) then last else best
  }

  datatype Pick = Pick(libraryId: string, value: Option<real>)

  /** The library that `First` chooses.  No case of `build_best_by_case` is empty. */
  function PickOf(high: bool, figure: Figure, items: seq<MasterRow>): Pick {
    if items == [] then Pick("", None)
    else
      var best := First(high, figure, items);
      Pick(best.libraryId, figure(best))
  }

  datatype BestCase = BestCase(key: CaseKey, time: Pick, energy: Pick, throughput: Pick, efficiency: Pick)

  function BestOf(k: CaseKey, items: seq<MasterRow>): BestCase {
    BestCase(k, PickOf(false, TIME, items), PickOf(false, ENERGY, items),
             PickOf(true, THROUGHPUT, items), PickOf(true, EFFICIENCY, items))
  }

  /** What a pick among the rows of case `k` is to be: no row has a better value, and a row
      with the same value belongs to the same library or to one later in the fixed order. */
  ghost predicate IsPick(high: bool, figure: Figure, rows: seq<MasterRow>, k: CaseKey, p: Pick) {
    && (exists x :: x in rows && x.key == k && x.libraryId == p.libraryId && figure(x) == p.value)
    && forall x :: x in rows && x.key == k ==>
                     Beats(high, p.value, figure(x)) || (p.value == figure(x) && LibraryLe(p.libraryId, x.libraryId))
  }

  ghost predicate IsBestCase(rows: seq<MasterRow>, b: BestCase) {
    && IsPick(false, TIME, rows, b.key, b.time) && IsPick(false, ENERGY, rows, b.key, b.energy)
    && IsPick(true, THROUGHPUT, rows, b.key, b.throughput) && IsPick(true, EFFICIENCY, rows, b.key, b.efficiency)
  }

  lemma {:induction false} FirstIsBest(high: bool, figure: Figure, items: seq<MasterRow>) returns (i: nat)
    requires items != []
    ensures i < |items| && First(high, figure, items) == items[i]
    ensures forall j :: 0 <= j < |items| ==> !Beats(high, figure(items[j]), figure(items[i]))
    ensures forall j :: 0 <= j < i ==> Beats(high, figure(items[i]), figure(items[j]))
  {
    var n := |items| - 1;
    if n == 0 {
      i := 0;
    } else {
      i := FirstIsBest(high, figure, items[..n]);
      if Beats(high, figure(items[n]), figure(items[i])) {
        forall j | 0 <= j < n
          ensures Beats(high, figure(items[n]), figure(items[j]))
        {
          assert !Beats(high, figure(items[..n][j]), figure(items[i]));
        }
        i := n;
      }
    }
  }

  lemma BestIsEarliest(high: bool, figure: Figure, items: seq<MasterRow>, i: nat, j: nat)
    requires Sorted(RowLe, items) && i < |items| && j < |items|
    requires !Beats(high, figure(items[j]), figure(items[i]))
    requires j < i ==> Beats(high, figure(items[i]), figure(items[j]))
    ensures Beats(high, figure(items[i]), figure(items[j]))
            || (figure(items[i]) == figure(items[j]) && LibraryLe(items[i].libraryId, items[j].libraryId))
  {
    hide LibraryLe; hide CaseLe;
    LibraryOrder();
    assert LibraryLe(items[j].libraryId, items[j].libraryId);
    if i < j { assert RowLe(items[i], items[j]); }
  }

  lemma {:induction false} PickIsRight(high: bool, figure: Figure, rows: seq<MasterRow>, k: CaseKey)
    requires Sorted(RowLe, rows) && exists i :: 0 <= i < |rows| && rows[i].key == k
    ensures Filter(Having(CASE_OF, k), rows) != []
    ensures IsPick(high, figure, rows, k, PickOf(high, figure, Filter(Having(CASE_OF, k), rows)))
  {
    hide Sort; hide CaseLe; hide LibraryLe; hide Filter; hide First; hide Beats;
    var items := Filter(Having(CASE_OF, k), rows);
    FilterHolds(Having(CASE_OF, k), rows);
    FilterSorted(RowLe, Having(CASE_OF, k), rows);
    var i0 :| 0 <= i0 < |rows| && rows[i0].key == k;
    assert rows[i0] in items;
    var i := FirstIsBest(high, figure, items);
    assert items[i] in rows && CASE_OF(items[i]) == k;
    forall x | x in rows && x.key == k
      ensures Beats(high, figure(items[i]), figure(x))
              || (figure(items[i]) == figure(x) && LibraryLe(items[i].libraryId, x.libraryId))
    {
      assert x in items;
      var j :| 0 <= j < |items| && items[j] == x;
      BestIsEarliest(high, figure, items, i, j);
    }
  }

  /** There is only one right pick. */
  lemma PickIsUnique(high: bool, figure: Figure, rows: seq<MasterRow>, k: CaseKey, p: Pick, q: Pick)
    requires IsPick(high, figure, rows, k, p) && IsPick(high, figure, rows, k, q)
    ensures p == q
  {
    hide LibraryLe;
    LibraryOrder();
    var x :| x in rows && x.key == k && x.libraryId == p.libraryId && figure(x) == p.value;
    var y :| y in rows && y.key == k && y.libraryId == q.libraryId && figure(y) == q.value;
  }

  /** A library without a value wins only when no library has one. */
  lemma MissingValuesLose(high: bool, figure: Figure, rows: seq<MasterRow>, k: CaseKey, p: Pick)
    requires IsPick(high, figure, rows, k, p)
    ensures p.value.None? <==> forall x :: x in rows && x.key == k ==> figure(x).None?
  {
  }

  /** What a pick is in terms of the values alone: one of those of its library in the case, and
      the least, or the greatest, of all that are there. */
  ghost predicate IsExtreme(high: bool, figure: Figure, rows: seq<MasterRow>, k: CaseKey, p: Pick) {
    && (exists x :: x in rows && x.key == k && x.libraryId == p.libraryId && figure(x) == p.value)
    && forall x :: x in rows && x.key == k && figure(x).Some? ==>
                     p.value.Some? && if high
                         then figure(x).value <= p.value.value else p.value.value <= figure(x).value
  }

  lemma PickIsExtreme(high: bool, figure: Figure, rows: seq<MasterRow>, k: CaseKey, p: Pick)
    requires IsPick(high, figure, rows, k, p)
    ensures IsExtreme(high, figure, rows, k, p)
  {
  }

  /** The figures of the row of an item: milliseconds, as given or from the seconds; energy;
      throughput; and throughput by energy. */
  lemma FiguresOfItem(libraryId: string, item: Item)
    ensures var row := RowOf(libraryId, item);
            var energy, throughput :=
              StatOf(Lookup(item.stats, EnergyJ), MeanKey), StatOf(Lookup(item.stats, Campaign.Throughput), MeanKey);
            var millis, seconds :=
              StatOf(Lookup(item.stats, ElapsedMs), MeanKey), StatOf(Lookup(item.stats, ElapsedS), MeanKey);
            && ENERGY(row) == energy && THROUGHPUT(row) == throughput
            && IsQuotient(EFFICIENCY(row), throughput, energy)
            && (millis.Some? ==> TIME(row) == millis)
            && (millis.None? && seconds.Some? ==> TIME(row) == Some(seconds.value * 1000.0))
            && (millis.None? && seconds.None? ==> TIME(row) == None)
  {
    hide FlatItem; hide WithElapsedMs; hide StatOf; hide Lookup; hide IsQuotient;
    RatiosOfItem(libraryId, item);
    RowAt(libraryId, item, EnergyJ, MeanKey);
    RowAt(libraryId, item, Campaign.Throughput, MeanKey);
    RowAt(libraryId, item, ElapsedMs, MeanKey);
  }

  ghost function BestIn(rows: seq<MasterRow>): CaseKey -> BestCase {
    (k: CaseKey) => BestOf(k, Filter(Having(CASE_OF, k), rows))
  }

  ghost function CasesIn(rows: seq<MasterRow>): seq<CaseKey> {
    Sort(CaseLe, Keys(CASE_OF, rows))
  }

  ghost function BestByCase(rows: seq<MasterRow>): seq<BestCase> {
    Map(BestIn(rows), CasesIn(rows))
  }

  /** `build_best_by_case`: one record per case, in the order of the cases. */
  method BuildBestByCase(rows: seq<MasterRow>) returns (result: seq<BestCase>)
    ensures result == BestByCase(rows)
  {
    hide Sort; hide Keys; hide Filter; hide BestOf;
    var order, grouped := GroupBy(CASE_OF, rows);
    var keys := Sort(CaseLe, order);
    SortedKeys(CaseLe, order);
    result := [];
    for i := 0 to |keys|
      invariant |result| == i
      invariant forall j :: 0 <= j < i ==> result[j] == BestIn(rows)(keys[j])
    {
      assert keys[i] in keys;
      var items := grouped[keys[i]];
      result := result + [BestOf(keys[i], items)];
    }
  }

  /** Sorting the keys of a grouping. */
  lemma SortedKeys<K(!new)>(le: (K, K) -> bool, ks: seq<K>)
    requires NoRepeats(ks)
    ensures NoRepeats(Sort(le, ks)) && forall k :: k in Sort(le, ks) <==> k in ks
    ensures TotalPreorder(le) ==> Sorted(le, Sort(le, ks))
  {
    SortSorts(le, ks);
    forall k
      ensures multiset(Sort(le, ks))[k] <= 1
      ensures k in Sort(le, ks) <==> k in ks
    {
      NoRepeatsCount(ks, k);
    }
    SingleCountsDiffer(Sort(le, ks));
  }

  /** Records with the right keys and the right picks are determined by the rows. */
  lemma {:induction false} BestCaseIsUnique(rows: seq<MasterRow>, b: BestCase, c: BestCase)
    requires b.key == c.key && IsBestCase(rows, b) && IsBestCase(rows, c)
    ensures b == c
  {
    hide IsPick;
    PickIsUnique(false, TIME, rows, b.key, b.time, c.time);
    PickIsUnique(false, ENERGY, rows, b.key, b.energy, c.energy);
    PickIsUnique(true, THROUGHPUT, rows, b.key, b.throughput, c.throughput);
    PickIsUnique(true, EFFICIENCY, rows, b.key, b.efficiency, c.efficiency);
  }

  lemma BestCaseIsRight(rows: seq<MasterRow>, k: CaseKey)
    requires Sorted(RowLe, rows) && exists i :: 0 <= i < |rows| && rows[i].key == k
    ensures BestIn(rows)(k).key == k && IsBestCase(rows, BestIn(rows)(k))
  {
    hide IsPick; hide PickOf; hide Filter; hide Sorted;
    PickIsRight(false, TIME, rows, k);
    PickIsRight(false, ENERGY, rows, k);
    PickIsRight(true, THROUGHPUT, rows, k);
    PickIsRight(true, EFFICIENCY, rows, k);
  }

  /** One record per case, in the order of the cases, and for each figure the right library:
      on the rows of `build_master_rows`, ties go to the library that is earlier in the fixed
      order. */
  lemma {:induction false} WinnersAreRight(files: seq<SummaryFile>)
    ensures var rows := MasterRows(files);
            var cases := CasesIn(rows);
            && Sorted(CaseLe, cases) && NoRepeats(cases)
            && (forall k :: k in cases <==> exists i :: 0 <= i < |rows| && rows[i].key == k)
            && |BestByCase(rows)| == |cases|
            && forall i :: 0 <= i < |cases| ==>
                BestByCase(rows)[i].key == cases[i] && IsBestCase(rows, BestByCase(rows)[i])
  {
    hide AllRows; hide RowLe; hide BestIn; hide IsBestCase; hide Sort; hide Keys; hide CaseLe; hide Sorted;
    var rows := MasterRows(files);
    RowOrder();
    SortSorts(RowLe, AllRows(files));
    CaseOrder();
    SortedKeys(CaseLe, Keys(CASE_OF, rows));
    assert forall i :: 0 <= i < |rows| ==> CASE_OF(rows[i]) == rows[i].key;
    var cases := CasesIn(rows);
    forall i | 0 <= i < |cases|
      ensures BestByCase(rows)[i].key == cases[i] && IsBestCase(rows, BestByCase(rows)[i])
    {
      assert cases[i] in cases;
      BestCaseIsRight(rows, cases[i]);
    }
  }

  /** The winners of a case, by value: the shortest time, the least energy, the greatest
      throughput and the greatest throughput by energy. */
  lemma {:induction false} WinnersAreExtreme(files: seq<SummaryFile>, i: nat)
    requires i < |BestByCase(MasterRows(files))|
    ensures var rows := MasterRows(files);
            var b := BestByCase(rows)[i];
            && IsExtreme(false, TIME, rows, b.key, b.time) && IsExtreme(false, ENERGY, rows, b.key, b.energy)
            && IsExtreme(true, THROUGHPUT, rows, b.key, b.throughput)
            && IsExtreme(true, EFFICIENCY, rows, b.key, b.efficiency)
  {
    hide MasterRows; hide IsPick; hide IsExtreme; hide BestByCase; hide CasesIn;
    WinnersAreRight(files);
    var rows := MasterRows(files);
    var b := BestByCase(rows)[i];
    PickIsExtreme(false, TIME, rows, b.key, b.time);
    PickIsExtreme(false, ENERGY, rows, b.key, b.energy);
    PickIsExtreme(true, THROUGHPUT, rows, b.key, b.throughput);
    PickIsExtreme(true, EFFICIENCY, rows, b.key, b.efficiency);
  }

  // ---------------------------------------------------------------------------
  // Overview
  // ---------------------------------------------------------------------------

  const IS_SOME: Option<real> -> bool := (x: Option<real>) => x.Some?
  const VALUE_OF: Option<real> -> real := (x: Option<real>) => match x case Some(v) => v case None => 0.0

  /** The values that are present, in order. */
  function Collect(figure: Figure, items: seq<MasterRow>): seq<real> {
    Map(VALUE_OF, Filter(IS_SOME, Map(figure, items)))
  }

  datatype Overall = Overall(average: Option<real>, best: Option<real>)

  function OverallOf(high: bool, figure: Figure, items: seq<MasterRow>): Overall {
    var values := Collect(figure, items);
    if values == [] then Overall(None, None)
    else Overall(Some(Mean(values)), Some(if high then Greatest(values) else Least(values)))
  }

  datatype OverviewEntry = OverviewEntry(
    libraryId: string, cases: nat, time: Overall, energy: Overall, throughput: Overall, efficiency: Overall)

  function EntryOf(id: string, items: seq<MasterRow>): OverviewEntry {
    OverviewEntry(id, |items|, OverallOf(false, TIME, items), OverallOf(false, ENERGY, items),
                  OverallOf(true, THROUGHPUT, items), OverallOf(true, EFFICIENCY, items))
  }

  ghost function EntryIn(rows: seq<MasterRow>): string -> OverviewEntry {
    (id: string) => EntryOf(id, Filter(Having(LIBRARY_OF, id), rows))
  }

  ghost function LibrariesIn(rows: seq<MasterRow>): seq<string> {
    Sort(LibraryLe, Keys(LIBRARY_OF, rows))
  }

  ghost function LibraryOverview(rows: seq<MasterRow>): seq<OverviewEntry> {
    Map(EntryIn(rows), LibrariesIn(rows))
  }

  /** `build_library_overview`: one entry per library, in the fixed order. */
  method BuildLibraryOverview(rows: seq<MasterRow>) returns (overview: seq<OverviewEntry>)
    ensures overview == LibraryOverview(rows)
  {
    hide Sort; hide Keys; hide Filter; hide EntryOf; hide LibraryLe; hide TotalPreorder; hide Sorted;
    var order, grouped := GroupBy(LIBRARY_OF, rows);
    var ids := Sort(LibraryLe, order);
    SortedKeys(LibraryLe, order);
    overview := [];
    for i := 0 to |ids|
      invariant |overview| == i
      invariant forall j :: 0 <= j < i ==> overview[j] == EntryIn(rows)(ids[j])
    {
      assert ids[i] in ids;
      var items := grouped[ids[i]];
      overview := overview + [EntryOf(ids[i], items)];
    }
  }

  /** How many rows have a value, and what these values add up to. */
  ghost function Present(figure: Figure, items: seq<MasterRow>): nat {
    if items == [] then 0
    else Present(figure, items[..|items| - 1]) + if figure(items[|items| - 1]).Some? then 1 else 0
  }

  ghost function TotalOf(figure: Figure, items: seq<MasterRow>): real {
    if items == [] then 0.0
    else
      TotalOf(figure, items[..|items| - 1]) + match figure(items[|items| - 1]) case Some(v) => v case None => 0.0
  }

  lemma CollectLast(figure: Figure, items: seq<MasterRow>)
    requires items != []
    ensures var last := |items| - 1;
            Collect(figure, items) == Collect(figure, items[..last])
                                      + if figure(items[last]).Some? then [figure(items[last]).value] else []
  {
    hide Filter;
    var last := |items| - 1;
    var options := Map(figure, items);
    assert options == Map(figure, items[..last]) + [figure(items[last])];
    FilterOfAppend(IS_SOME, Map(figure, items[..last]), [figure(items[last])]);
    FilterOfOne(IS_SOME, figure(items[last]));
  }

  lemma {:induction false} CollectIsPresent(figure: Figure, items: seq<MasterRow>)
    ensures |Collect(figure, items)| == Present(figure, items)
    ensures Sum(Collect(figure, items)) == TotalOf(figure, items)
    ensures forall x :: x in items && figure(x).Some? ==> figure(x).value in Collect(figure, items)
    ensures forall v :: v in Collect(figure, items) ==> exists x :: x in items && figure(x) == Some(v)
  {
    if items != [] {
      hide Collect; hide Sum;
      var n := |items| - 1;
      var earlier, last := Collect(figure, items[..n]), figure(items[n]);
      CollectIsPresent(figure, items[..n]);
      CollectLast(figure, items);
      assert items == items[..n] + [items[n]];
      if last.Some? {
        SumOfAppend(earlier, [last.value]);
        SumOfOne(last.value);
      } else {
        assert earlier + [] == earlier;
      }
    }
  }

  lemma SumOfOne(v: real)
    ensures Sum([v]) == v
  {
  }

  /** The best value is that of some row, and the least, or the greatest, of all; the average
      times the number of the values is their sum.  Rows without a value do not count. */
  ghost predicate IsOverall(high: bool, figure: Figure, items: seq<MasterRow>, o: Overall) {
    && (o.average.Some? <==> Present(figure, items) > 0) && (o.best.Some? <==> o.average.Some?)
    && (o.best.Some? <==> exists x :: x in items && figure(x).Some?)
    && (o.average.Some? ==> o.average.value * Present(figure, items) as real == TotalOf(figure, items))
    && (o.best.Some? ==>
          && (exists x :: x in items && figure(x) == o.best)
          && forall x :: x in items && figure(x).Some? ==>
               if high then figure(x).value <= o.best.value else o.best.value <= figure(x).value)
  }

  lemma {:induction false} OverallIsRight(high: bool, figure: Figure, items: seq<MasterRow>)
    ensures IsOverall(high, figure, items, OverallOf(high, figure, items))
  {
    hide Collect; hide Sum; hide Present; hide TotalOf;
    CollectIsPresent(figure, items);
    var values := Collect(figure, items);
    if values != [] {
      LeastGreatestBound(values);
    }
  }

  /** What an entry of the overview says about the rows of its library: how many there are, the
      shortest time, the least energy, the greatest throughput and throughput by energy, and
      the average of each. */
  lemma {:induction false} EntriesAreRight(rows: seq<MasterRow>, i: nat)
    requires i < |LibraryOverview(rows)|
    ensures var e := LibraryOverview(rows)[i];
            var items := Filter(Having(LIBRARY_OF, e.libraryId), rows);
            && e.cases == |items|
            && IsOverall(false, TIME, items, e.time) && IsOverall(false, ENERGY, items, e.energy)
            && IsOverall(true, THROUGHPUT, items, e.throughput) && IsOverall(true, EFFICIENCY, items, e.efficiency)
  {
    hide Filter; hide OverallOf; hide IsOverall; hide LibrariesIn;
    var items := Filter(Having(LIBRARY_OF, LibrariesIn(rows)[i]), rows);
    OverallIsRight(false, TIME, items);
    OverallIsRight(false, ENERGY, items);
    OverallIsRight(true, THROUGHPUT, items);
    OverallIsRight(true, EFFICIENCY, items);
  }

  lemma CollectForgetsOrder(figure: Figure, a: seq<MasterRow>, b: seq<MasterRow>)
    requires multiset(a) == multiset(b)
    ensures multiset(Collect(figure, a)) == multiset(Collect(figure, b))
  {
    MapForgetsOrder(figure, a, b);
    FilterForgetsOrder(IS_SOME, Map(figure, a), Map(figure, b));
    MapForgetsOrder(VALUE_OF, Filter(IS_SOME, Map(figure, a)), Filter(IS_SOME, Map(figure, b)));
  }

  lemma OverallForgetsOrder(high: bool, figure: Figure, a: seq<MasterRow>, b: seq<MasterRow>)
    requires multiset(a) == multiset(b)
    ensures OverallOf(high, figure, a) == OverallOf(high, figure, b)
  {
    hide Collect;
    CollectForgetsOrder(figure, a, b);
    var x, y := Collect(figure, a), Collect(figure, b);
    SortRealsForgetsOrder(x, y);
    if x != [] {
      LeastIsFirst(x);
      LeastIsFirst(y);
    }
  }

  lemma EntryForgetsOrder(id: string, a: seq<MasterRow>, b: seq<MasterRow>)
    requires multiset(a) == multiset(b)
    ensures EntryOf(id, a) == EntryOf(id, b)
  {
    hide OverallOf;
    SameLength(a, b);
    OverallForgetsOrder(false, TIME, a, b);
    OverallForgetsOrder(false, ENERGY, a, b);
    OverallForgetsOrder(true, THROUGHPUT, a, b);
    OverallForgetsOrder(true, EFFICIENCY, a, b);
  }

  /** The overview depends only on which rows there are. */
  lemma {:induction false} OverviewForgetsOrder(a: seq<MasterRow>, b: seq<MasterRow>)
    requires multiset(a) == multiset(b)
    ensures LibraryOverview(a) == LibraryOverview(b)
  {
    hide Sort; hide Keys; hide LibraryLe; hide EntryOf; hide Filter;
    LibraryOrder();
    KeysForgetOrder(LIBRARY_OF, a, b);
    SortForgetsOrder(LibraryLe, Keys(LIBRARY_OF, a), Keys(LIBRARY_OF, b));
    forall id
      ensures EntryIn(a)(id) == EntryIn(b)(id)
    {
      var p := Having(LIBRARY_OF, id);
      FilterForgetsOrder(p, a, b);
      EntryForgetsOrder(id, Filter(p, a), Filter(p, b));
    }
  }

  /** One entry per library, in the fixed order. */
  lemma OneEntryPerLibrary(rows: seq<MasterRow>)
    ensures Sorted(LibraryLe, LibrariesIn(rows)) && NoRepeats(LibrariesIn(rows))
    ensures forall id :: id in LibrariesIn(rows) <==> exists i :: 0 <= i < |rows| && rows[i].libraryId == id
    ensures |LibraryOverview(rows)| == |LibrariesIn(rows)|
    ensures forall i :: 0 <= i < |LibraryOverview(rows)| ==> LibraryOverview(rows)[i].libraryId == LibrariesIn(rows)[i]
  {
    hide Sort; hide Keys; hide LibraryLe; hide Filter; hide OverallOf;
    LibraryOrder();
    SortedKeys(LibraryLe, Keys(LIBRARY_OF, rows));
    assert forall i :: 0 <= i < |rows| ==> LIBRARY_OF(rows[i]) == rows[i].libraryId;
  }

  // ---------------------------------------------------------------------------
  // The overview of a campaign
  // ---------------------------------------------------------------------------

  lemma RowsAreNamed(f: SummaryFile)
    ensures forall i :: 0 <= i < |FileRows(f)| ==> LIBRARY_OF(FileRows(f)[i]) == f.libraryId
  {
  }

  /** The rows of a library are the rows of its file. */
  lemma {:induction false} RowsOfLibrary(files: seq<SummaryFile>, i: nat)
    requires DistinctLibraries(files) && i < |files|
    ensures Filter(Having(LIBRARY_OF, files[i].libraryId), AllRows(files)) == FileRows(files[i])
  {
    hide FileRows;
    var n := |files| - 1;
    var p := Having(LIBRARY_OF, files[i].libraryId);
    FilterOfAppend(p, AllRows(files[..n]), FileRows(files[n]));
    RowsAreNamed(files[n]);
    if i == n {
      OtherLibraries(files[..n], files[n].libraryId);
      FilterAll(p, FileRows(files[n]));
      assert [] + FileRows(files[n]) == FileRows(files[n]);
    } else {
      RowsOfLibrary(files[..n], i);
      FilterNone(p, FileRows(files[n]));
      assert FileRows(files[i]) + [] == FileRows(files[i]);
    }
  }

  lemma {:induction false} OtherLibraries(files: seq<SummaryFile>, id: string)
    requires forall i :: 0 <= i < |files| ==> files[i].libraryId != id
    ensures Filter(Having(LIBRARY_OF, id), AllRows(files)) == []
  {
    hide FileRows;
    if files != [] {
      var n := |files| - 1;
      FilterOfAppend(Having(LIBRARY_OF, id), AllRows(files[..n]), FileRows(files[n]));
      RowsAreNamed(files[n]);
      OtherLibraries(files[..n], id);
      FilterNone(Having(LIBRARY_OF, id), FileRows(files[n]));
    }
  }

  /** The figure that `build_library_overview` averages for a metric. */
  ghost function FigureOf(m: Metric): Figure {
    (x: MasterRow) => Get(x.fields, m, MeanKey)
  }

  lemma {:induction false} MeansAt(m: Metric, summary: seq<CaseSummary>, i: nat)
    requires (forall j :: 0 <= j < |summary| ==> summary[j].Of(m).Some?) && i < |summary|
    ensures |Means(m, summary)| == |summary| && Means(m, summary)[i] == summary[i].Of(m).value.mean
  {
    if |summary| > 1 {
      MeansAt(m, summary[1..], if i == 0 then 0 else i - 1);
    }
  }

  /** The rows of a campaign's file show the means of its cases, of the milliseconds too when
      only the seconds were recorded. */
  lemma RowShowsMean(id: string, item: Item, s: CaseSummary, items: seq<Measurement>, older: bool, m: Metric)
    requires items != [] && ItemFor(item, s, older)
    requires forall n: Metric :: s.Of(n) == ComputeStats(Values(n, items))
    requires older ==> forall i :: 0 <= i < |items| ==> items[i].elapsedMs.None?
    ensures s.Of(m).Some? && FigureOf(m)(RowOf(id, item)) == Some(s.Of(m).value.mean)
  {
    hide ComputeStats; hide Encodes; hide Values; hide Scale;
    RowAt(id, item, m, MeanKey);
    if m in item.stats {
      EncodesAll(item.stats[m], s.Of(m).value);
    } else {
      var seconds := Values(ElapsedS, items);
      assert m == ElapsedMs && ElapsedS in item.stats;
      EncodesAll(item.stats[ElapsedS], s.Of(ElapsedS).value);
      OlderRunsScale(items);
      assert |seconds| == |items| by { ValuesLength(ElapsedS, items); }
      StatsScale(1000.0, seconds);
    }
  }

  lemma ValuesLength(m: Metric, items: seq<Measurement>)
    ensures |Values(m, items)| == |items|
  {
  }

  lemma FileShowsMeans(f: SummaryFile, results: seq<Measurement>, m: Metric)
    requires results != [] && FileFor(f, results)
    ensures forall i :: 0 <= i < |Summarize(results)| ==> Summarize(results)[i].Of(m).Some?
    ensures Collect(FigureOf(m), FileRows(f)) == Means(m, Summarize(results))
  {
    hide ComputeStats; hide Summarize; hide RowOf; hide Filter; hide Summary; hide ItemFor;
    var summary, rows := Summarize(results), FileRows(f);
    var older := forall i :: 0 <= i < |results| ==> results[i].elapsedMs.None?;
    SummaryHasStats(results);
    var shown := Map(FigureOf(m), rows);
    forall i | 0 <= i < |summary|
      ensures |Means(m, summary)| == |summary| && IS_SOME(shown[i]) && VALUE_OF(shown[i]) == Means(m, summary)[i]
    {
      CaseShowsMean(f, results, i, m);
      MeansAt(m, summary, i);
    }
    if summary == [] { assert Means(m, summary) == []; }
    FilterAll(IS_SOME, shown);
    assert Collect(FigureOf(m), rows) == Means(m, summary);
  }

  lemma CaseShowsMean(f: SummaryFile, results: seq<Measurement>, i: nat, m: Metric)
    requires FileFor(f, results) && i < |Summarize(results)|
    ensures Summarize(results)[i].Of(m).Some?
    ensures FigureOf(m)(FileRows(f)[i]) == Some(Summarize(results)[i].Of(m).value.mean)
  {
    hide ComputeStats; hide Summarize; hide RowOf; hide Filter; hide Summary; hide ItemFor; hide FigureOf;
    hide SortedCases;
    var older := forall i :: 0 <= i < |results| ==> results[i].elapsedMs.None?;
    OneSummaryPerCase(results);
    SummaryIsPerCase(results, i);
    var k := SortedCases(results)[i];
    var items := OfCase(k, results);
    SummaryHasStats(results);
    FilterHolds(Having(KEY_OF, k), results);
    assert Summarize(results)[i].Of(m).Some? && Summarize(results)[i].runs > 0;
    RowShowsMean(f.libraryId, f.Items()[i], Summarize(results)[i], items, older, m);
  }

  /** Across all the scripts: when every case of a library was run equally often, its averages
      in the overview are the means of its raw measurements. */
  lemma {:induction false} OverviewAveragesAllRuns(files: seq<SummaryFile>, i: nat, n: nat, results: seq<Measurement>)
    requires DistinctLibraries(files) && i < |files|
    requires results != [] && FileFor(files[i], results) && EvenRuns(n, Summarize(results))
    ensures var entry := EntryIn(MasterRows(files))(files[i].libraryId);
            && entry in LibraryOverview(MasterRows(files)) && entry.libraryId == files[i].libraryId
            && entry.cases == |Summarize(results)|
            && entry.time.average == Some(Mean(Values(ElapsedMs, results)))
            && entry.energy.average == Some(Mean(Values(EnergyJ, results)))
            && entry.throughput.average == Some(Mean(Values(Throughput, results)))
  {
    hide OverallOf; hide AllRows; hide Filter; hide FileFor; hide Summarize; hide EvenRuns; hide Mean; hide RowLe;
    hide Values; hide Means;
    var f := files[i];
    var p := Having(LIBRARY_OF, f.libraryId);
    SortSorts(RowLe, AllRows(files));
    FilterForgetsOrder(p, MasterRows(files), AllRows(files));
    RowsOfLibrary(files, i);
    EntryForgetsOrder(f.libraryId, Filter(p, MasterRows(files)), FileRows(f));
    FileLength(f, results);
    AverageIsMean(f, n, results, false, ElapsedMs);
    AverageIsMean(f, n, results, false, EnergyJ);
    AverageIsMean(f, n, results, true, Throughput);
    SameFigures();
    SummaryIsNotEmpty(results);
    EntryIsListed(MasterRows(files), f.libraryId);
  }

  lemma SummaryIsNotEmpty(results: seq<Measurement>)
    requires results != []
    ensures Summarize(results) != []
  {
  }

  lemma EntryIsListed(rows: seq<MasterRow>, id: string)
    requires EntryIn(rows)(id).cases > 0
    ensures EntryIn(rows)(id) in LibraryOverview(rows) && EntryIn(rows)(id).libraryId == id
  {
    hide Sort; hide Keys; hide Filter; hide OverallOf; hide LibrariesIn; hide LibraryLe;
    OneEntryPerLibrary(rows);
    FilterHolds(Having(LIBRARY_OF, id), rows);
    var x := Filter(Having(LIBRARY_OF, id), rows)[0];
    assert x in rows && LIBRARY_OF(x) == id;
    assert id in LibrariesIn(rows);
    var j :| 0 <= j < |LibrariesIn(rows)| && LibrariesIn(rows)[j] == id;
    assert LibraryOverview(rows)[j] == EntryIn(rows)(id);
  }

  lemma FileLength(f: SummaryFile, results: seq<Measurement>)
    requires FileFor(f, results)
    ensures |FileRows(f)| == |Summarize(results)|
  {
  }

  lemma SameFigures()
    ensures FigureOf(ElapsedMs) == TIME && FigureOf(EnergyJ) == ENERGY && FigureOf(Throughput) == THROUGHPUT
  {
  }

  lemma AverageIsMean(f: SummaryFile, n: nat, results: seq<Measurement>, high: bool, m: Metric)
    requires results != [] && FileFor(f, results) && EvenRuns(n, Summarize(results))
    ensures OverallOf(high, FigureOf(m), FileRows(f)).average == Some(Mean(Values(m, results)))
  {
    hide Collect; hide FileFor; hide Summarize; hide EvenRuns; hide Values; hide Means; hide Mean;
    FileShowsMeans(f, results, m);
    MeanOfMeans(m, n, results);
  }

  lemma SameRowsSamePicks(a: seq<MasterRow>, b: seq<MasterRow>, c: BestCase)
    requires multiset(a) == multiset(b) && IsBestCase(a, c)
    ensures IsBestCase(b, c)
  {
    hide Beats; hide LibraryLe;
    forall x
      ensures x in a <==> x in b
    {
      assert x in a <==> x in multiset(a);
      assert x in b <==> x in multiset(b);
    }
    SamePick(false, TIME, a, b, c.key, c.time);
    SamePick(false, ENERGY, a, b, c.key, c.energy);
    SamePick(true, THROUGHPUT, a, b, c.key, c.throughput);
    SamePick(true, EFFICIENCY, a, b, c.key, c.efficiency);
  }

  lemma SamePick(high: bool, figure: Figure, a: seq<MasterRow>, b: seq<MasterRow>, k: CaseKey, p: Pick)
    requires (forall x :: x in a <==> x in b) && IsPick(high, figure, a, k, p)
    ensures IsPick(high, figure, b, k, p)
  {
    hide Beats; hide LibraryLe;
    var x :| x in a && x.key == k && x.libraryId == p.libraryId && figure(x) == p.value;
    assert x in b;
  }

  /** Winners and overview never depend on the order in which the files are read, not even when
      the rows do, because files of one name disagree or a file repeats a case. */
  lemma {:induction false} WinnersForgetFileOrder(a: seq<SummaryFile>, b: seq<SummaryFile>)
    requires multiset(a) == multiset(b)
    ensures BestByCase(MasterRows(a)) == BestByCase(MasterRows(b))
    ensures LibraryOverview(MasterRows(a)) == LibraryOverview(MasterRows(b))
  {
    hide AllRows; hide RowLe; hide BestByCase; hide IsBestCase; hide Sort; hide CasesIn; hide LibraryOverview;
    hide NoRepeats; hide Sorted;
    var x, y := MasterRows(a), MasterRows(b);
    AllRowsForgetOrder(a, b);
    SortSorts(RowLe, AllRows(a));
    SortSorts(RowLe, AllRows(b));
    OverviewForgetsOrder(x, y);
    CasesForgetOrder(x, y);
    WinnersAreRight(a);
    WinnersAreRight(b);
    forall i | 0 <= i < |BestByCase(x)|
      ensures BestByCase(x)[i] == BestByCase(y)[i]
    {
      SameRowsSamePicks(x, y, BestByCase(x)[i]);
      BestCaseIsUnique(y, BestByCase(x)[i], BestByCase(y)[i]);
    }
  }

  lemma CasesForgetOrder(a: seq<MasterRow>, b: seq<MasterRow>)
    requires multiset(a) == multiset(b)
    ensures CasesIn(a) == CasesIn(b)
  {
    hide Sort; hide Keys; hide CaseLe;
    CaseOrder();
    KeysForgetOrder(CASE_OF, a, b);
    SortForgetsOrder(CaseLe, Keys(CASE_OF, a), Keys(CASE_OF, b));
  }
}
